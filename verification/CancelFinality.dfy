/** When a cancelled job stays cancelled. */
module CancelFinality {
  import opened BotTypes
  import opened CaseLock
  import opened Collections
  import opened JobProtocol

  /** A process that will not store another status for its job. */
  predicate Harmless(p: Pc) {
    p.Idle? || p.Cancelling? || (p.Finishing? && p.done)
  }

  /** No delivery of the job is left in the broker, and whoever still works on it is only
      cancelling it or leaving a finished run. */
  ghost predicate Settled(s: State, j: JobId) {
    j !in s.broker && forall w | w in s.workers && !s.workers[w].Idle? && s.workers[w].c.job == j :: Harmless(s.workers[w])
  }

  /** Nobody dispatches the job again or asks for a retry. */
  predicate LeavesAlone(e: Event, j: JobId) {
    e != Dispatch(j) && (e.By? ==> e.act != RetryReads(j))
  }

  function Alone(j: JobId): Event -> bool {
    (e: Event) => LeavesAlone(e, j)
  }

  predicate Cancelled(s: State, j: JobId) {
    j in s.jobs && s.jobs[j].status.Quarantined?
  }

  ghost predicate StaysCancelled(s: State, j: JobId) {
    forall ss, es | RunOf(ss, es, Alone(j)) && ss[0] == s :: forall k: nat | k <= |es| :: Cancelled(ss[k], j)
  }

  lemma SettledStep(s: State, e: Event, j: JobId)
    requires Cancelled(s, j) && Settled(s, j) && Enabled(s, e) && LeavesAlone(e, j)
    ensures Cancelled(Next(s, e), j) && Settled(Next(s, e), j)
  {
    if e.By? {
      assert At(s, e.w).Idle? || At(s, e.w).c.job != j || Harmless(At(s, e.w));
    }
  }

  lemma {:induction false} SettledStays(ss: seq<State>, es: seq<Event>, k: nat, j: JobId)
    requires RunOf(ss, es, Alone(j)) && k <= |es| && Cancelled(ss[0], j) && Settled(ss[0], j)
    ensures Cancelled(ss[k], j) && Settled(ss[k], j)
  {
    if k > 0 {
      SettledStays(ss, es, k - 1, j);
      assert StepAt(ss, es, k - 1) && LeavesAlone(es[k - 1], j);
      SettledStep(ss[k - 1], es[k - 1], j);
    }
  }

  // ---------- otherwise some run overwrites it ----------

  lemma Step(o: State, s: State, w: WorkerId, act: Act, j: JobId) returns (t: State)
    requires LeadsTo(o, s, Alone(j)) && Enabled(s, By(w, act)) && act != RetryReads(j)
    ensures LeadsTo(o, t, Alone(j)) && At(t, w) == PcAfter(s, w, act) && t.jobs == JobsAfter(s, w, act)
  {
    Extend(o, s, By(w, act), Alone(j));
    t := Next(s, By(w, act));
    hide LeadsTo, Enabled, PcAfter, JobsAfter, LocksAfter;
  }

  /** A process that is not harmless can store another status. */
  lemma {:induction false} Overwrites(o: State, s: State, w: WorkerId, j: JobId) returns (t: State)
    requires LeadsTo(o, s, Alone(j)) && j in s.jobs && !At(s, w).Idle? && At(s, w).c.job == j && !Harmless(At(s, w))
    ensures LeadsTo(o, t, Alone(j)) && !Cancelled(t, j)
    decreases match At(s, w) case Loaded(_) => 1 case Gated(_) => 4 case Entered(_) => 1 case Trying(_) => 2 case Working(_, _) => 2
                               case Finishing(_, _) => 1 case _ => 0
  {
    hide LeadsTo;
    match At(s, w)
    case Loaded(c) => t := Step(o, s, w, LoadFails, j); t := Overwrites(o, t, w, j);
    case Gated(c) =>
      t := Step(o, s, w, if c.risk.IsWrite() then AcquireFails else SkipsLock, j);
      t := Overwrites(o, t, w, j);
    case Refused(c) => t := Step(o, s, w, StoresBlocked, j);
    case Entered(c) => t := Step(o, s, w, UiStartFails, j); t := Overwrites(o, t, w, j);
    case Trying(c) => t := Step(o, s, w, Raises, j); t := Overwrites(o, t, w, j);
    case Working(c, n) => t := Step(o, s, w, Raises, j); t := Overwrites(o, t, w, j);
    case Finishing(c, done) => t := Step(o, s, w, Releases, j); t := Overwrites(o, t, w, j);
    case Failing(c) => t := Step(o, s, w, StoresFailed, j);
    case Retrying(c) => t := Step(o, s, w, RetryStores, j);
  }

  /** Cancelling is final exactly in settled states: a QUARANTINED job stays so over every
      run in which nobody dispatches it or asks for a retry, if and only if no delivery of
      it is left and no process is past reading its row other than to cancel it or to
      leave a finished run. */
  lemma CancelIsFinal(s: State, j: JobId)
    requires Cancelled(s, j)
    ensures StaysCancelled(s, j) <==> Settled(s, j)
  {
    if Settled(s, j) {
      forall ss, es | RunOf(ss, es, Alone(j)) && ss[0] == s ensures forall k: nat | k <= |es| :: Cancelled(ss[k], j) {
        forall k: nat | k <= |es| ensures Cancelled(ss[k], j) { SettledStays(ss, es, k, j); }
      }
    } else {
      var t := Unsettled(s, j);
      var ss, es :| RunOf(ss, es, Alone(j)) && ss[0] == s && ss[|es|] == t;
      assert !Cancelled(ss[|es|], j);
    }
  }

  lemma Unsettled(s: State, j: JobId) returns (t: State)
    requires Cancelled(s, j) && !Settled(s, j)
    ensures LeadsTo(s, t, Alone(j)) && !Cancelled(t, j)
  {
    LeadsToItself(s, Alone(j));
    hide LeadsTo;
    if j in s.broker {
      var w := FreshNumber(s.workers.Keys);
      assert At(s, w).Idle?;
      t := Step(s, s, w, Take(j), j);
      t := Overwrites(s, t, w, j);
    } else {
      var w :| w in s.workers && !s.workers[w].Idle? && s.workers[w].c.job == j && !Harmless(s.workers[w]);
      t := Overwrites(s, s, w, j);
    }
  }
}
