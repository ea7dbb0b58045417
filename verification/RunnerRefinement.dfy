/** The Celery task and the interleaved protocol meet: when no other process steps in
    between, the protocol can do to a job, its rows and the locks exactly what the contract
    of `RunJob` says. */
module RunnerRefinement {
  import opened BotTypes
  import opened CaseLock
  import opened JobProtocol
  import Runner = RecipeRunner

  /** Only the row of `j` and the program counter of `w` may differ, besides locks, broker
      and bookkeeping. */
  ghost predicate Framed(s: State, t: State, w: WorkerId, j: JobId) {
    && t.degraded == s.degraded && t.jobs.Keys == s.jobs.Keys
    && (forall k | k in s.jobs && k != j :: t.jobs[k] == s.jobs[k])
    && forall v | v != w :: At(t, v) == At(s, v)
  }

  /** One step of `w`, component by component. */
  lemma Go(o: State, s: State, w: WorkerId, j: JobId, act: Act) returns (t: State)
    requires Reaches(o, s) && Enabled(s, By(w, act)) && (StoresRow(act) ==> At(s, w).c.job == j)
    ensures Reaches(o, t) && t.jobs.Keys == s.jobs.Keys
    ensures At(t, w) == PcAfter(s, w, act)
    ensures t.locks == LocksAfter(s, w, act)
    ensures t.broker == if act.Take? then s.broker - multiset{act.j} else s.broker
    ensures t.degraded == s.degraded && (j in s.jobs ==> j in t.jobs)
    ensures if StoresRow(act) then t.jobs[j] == RowAfter(At(s, w), act, s.jobs[j]) else t.jobs == s.jobs
    ensures Framed(s, t, w, j)
  {
    Extend(o, s, By(w, act), ANY);
    t := Next(s, By(w, act));
  }

  lemma FramedTwice(s: State, a: State, t: State, w: WorkerId, j: JobId)
    requires Framed(s, a, w, j) && Framed(a, t, w, j)
    ensures Framed(s, t, w, j)
  {
  }

  /** One step of the run: what the world lets it store, and on to the next or to `finally`. */
  lemma OneStep(o: State, s: State, w: WorkerId, c: Copy, world: Runner.World, k: nat) returns (t: State)
    requires Reaches(o, s) && At(s, w) == Working(c, k) && k < 2 + c.actions && c.job in s.jobs
    ensures Reaches(o, t) && Framed(s, t, w, c.job) && t.locks == s.locks && t.broker == s.broker && c.job in t.jobs
    ensures At(t, w) == if Runner.GoesOn(world, k) then Working(c, k + 1) else Finishing(c, false)
    ensures t.jobs[c.job] == s.jobs[c.job].(rows := s.jobs[c.job].rows + Runner.StepRows(world, k))
  {
    hide Reaches, Framed;
    if world(k).Cut? {
      t := Go(o, s, w, c.job, Raises);
      assert s.jobs[c.job].rows + [] == s.jobs[c.job].rows;
    } else {
      t := Go(o, s, w, c.job, AppendsRow(world(k).StoredThenCut? || world(k).ok || k == 0));
      if world(k).StoredThenCut? {
        var a := t;
        t := Go(o, a, w, c.job, Raises);
        FramedTwice(s, a, t, w, c.job);
      }
    }
  }

  /** Rows and success from number `k` on, one step unfolded; `base` are the rows so far. */
  lemma {:induction false} Unfold(base: seq<StepRow>, world: Runner.World, k: nat, last: nat)
    requires k <= last
    ensures k == last ==> Runner.GoOn(world, k, last) && base + Runner.RowsFrom(world, k, last) == base
    ensures k < last ==> (Runner.GoOn(world, k, last) <==> Runner.GoesOn(world, k) && Runner.GoOn(world, k + 1, last))
    ensures k < last ==> base + Runner.RowsFrom(world, k, last)
                         == if Runner.GoesOn(world, k) then base + Runner.StepRows(world, k) + Runner.RowsFrom(world, k + 1, last)
                            else base + Runner.StepRows(world, k)
  {
    if k < last {
      Runner.RowsStep(world, base, k, last);
    }
  }

  /** The step loop: from number `k` on, the process stores the rows `RowsFrom` lists and
      gets to `finally`, having stored DONE exactly when every step let it go on and that store did not raise. */
  lemma {:induction false} StepsPhase(o: State, s: State, w: WorkerId, c: Copy, world: Runner.World, k: nat, endFails: bool)
    returns (t: State)
    requires Reaches(o, s) && At(s, w) == Working(c, k) && k <= 2 + c.actions && c.job in s.jobs
    ensures Reaches(o, t) && Framed(s, t, w, c.job) && t.locks == s.locks && t.broker == s.broker && c.job in t.jobs
    ensures var row, last := s.jobs[c.job], 2 + c.actions;
            var done := Runner.GoOn(world, k, last) && !endFails;
            && At(t, w) == Finishing(c, done)
            && t.jobs[c.job] == row.(rows := row.rows + Runner.RowsFrom(world, k, last), status := if done then Done else row.status)
    decreases 2 + c.actions - k
  {
    hide Reaches, Framed, Runner.StepRows, Runner.RowsFrom, Runner.GoOn, Runner.GoesOn;
    Unfold(s.jobs[c.job].rows, world, k, 2 + c.actions);
    if k == 2 + c.actions {
      t := Go(o, s, w, c.job, if endFails then Raises else Completes);
    } else {
      t := OneStep(o, s, w, c, world, k);
      if Runner.GoesOn(world, k) {
        var a := t;
        t := StepsPhase(o, a, w, c, world, k + 1, endFails);
        FramedTwice(s, a, t, w, c.job);
      }
    }
  }

  /** Storing FAILED, or dying of the attempt. */
  lemma ReportPhase(o: State, s: State, w: WorkerId, c: Copy, env: Runner.Setting) returns (t: State)
    requires Reaches(o, s) && At(s, w) == Failing(c) && c.job in s.jobs
    ensures Reaches(o, t) && Framed(s, t, w, c.job) && t.broker == s.broker && t.locks == s.locks && At(t, w).Idle? && c.job in t.jobs
    ensures t.jobs[c.job] == if Runner.Reporting in env.fails then s.jobs[c.job] else s.jobs[c.job].(status := Failed)
  {
    hide Reaches, Framed;
    t := Go(o, s, w, c.job, if Runner.Reporting in env.fails then Crashes else StoresFailed);
  }

  /** From `finally` to the end of the run. */
  lemma LeavePhase(o: State, s: State, w: WorkerId, c: Copy, done: bool, env: Runner.Setting) returns (t: State)
    requires Reaches(o, s) && At(s, w) == Finishing(c, done) && c.job in s.jobs
    ensures Reaches(o, t) && Framed(s, t, w, c.job) && t.broker == s.broker && At(t, w).Idle? && c.job in t.jobs
    ensures t.locks == if Runner.Releasing in env.fails then s.locks else Released(s.locks, c.caseId, c.job)
    ensures t.jobs[c.job] == if done || Runner.Reporting in env.fails then s.jobs[c.job] else s.jobs[c.job].(status := Failed)
  {
    hide Reaches, Framed;
    t := Go(o, s, w, c.job, if Runner.Releasing in env.fails then ReleaseFails else Releases);
    if !done {
      var a := t;
      t := ReportPhase(o, a, w, c, env);
      FramedTwice(s, a, t, w, c.job);
    }
  }

  /** From storing RUNNING to `finally`, storing DONE or not at the end. */
  lemma TryPhase(o: State, s: State, w: WorkerId, c: Copy, env: Runner.Setting, world: Runner.World) returns (t: State)
    requires Reaches(o, s) && At(s, w) == Trying(c) && c.job in s.jobs && c.attempt == s.jobs[c.job].attempt
    requires Runner.Starting !in env.fails
    ensures Reaches(o, t) && Framed(s, t, w, c.job) && t.broker == s.broker && t.locks == s.locks && c.job in t.jobs
    ensures var row, last := s.jobs[c.job], 2 + c.actions;
            var done := Runner.Succeeds(world, last) && Runner.Ending !in env.fails;
            && At(t, w) == Finishing(c, done)
            && t.jobs[c.job] == row.(status := if done then Done else Running, attempt := row.attempt + 1,
                                     starts := row.starts + 1, rows := row.rows + Runner.RowsFrom(world, 0, last))
  {
    hide Reaches, Framed, Runner.RowsFrom, Runner.GoOn;
    var a := Go(o, s, w, c.job, StoresRunning);
    t := StepsPhase(o, a, w, c, world, 0, Runner.Ending in env.fails);
    FramedTwice(s, a, t, w, c.job);
  }

  /** From the section's entry to the end of the run. */
  lemma EnteredPhase(o: State, s: State, w: WorkerId, c: Copy, env: Runner.Setting, world: Runner.World) returns (t: State)
    requires Reaches(o, s) && At(s, w) == Entered(c) && c.job in s.jobs && c.attempt == s.jobs[c.job].attempt
    ensures Reaches(o, t) && Framed(s, t, w, c.job) && t.broker == s.broker && At(t, w).Idle? && c.job in t.jobs
    ensures t.locks == if Runner.UiStarting !in env.fails && Runner.Releasing !in env.fails then Released(s.locks, c.caseId, c.job)
                       else s.locks
    ensures AfterEntering(s.jobs[c.job], t.jobs[c.job], c, env, world)
  {
    hide Runner.RowsFrom, Runner.Succeeds, Reaches, Framed;
    if Runner.UiStarting in env.fails {
      var a := Go(o, s, w, c.job, UiStartFails);
      t := ReportPhase(o, a, w, c, env);
      FramedTwice(s, a, t, w, c.job);
    } else {
      var a := Go(o, s, w, c.job, UiStarts);
      var b := a;
      if Runner.Starting in env.fails {
        b := Go(o, a, w, c.job, Raises);
      } else {
        b := TryPhase(o, a, w, c, env, world);
      }
      t := LeavePhase(o, b, w, c, At(b, w).done, env);
      FramedTwice(s, a, b, w, c.job);
      FramedTwice(s, b, t, w, c.job);
    }
  }

  /** The row after a run that got into its section. */
  ghost predicate AfterEntering(row: Job, row': Job, c: Copy, env: Runner.Setting, world: Runner.World) {
    var last := 2 + c.actions;
    var starts := Runner.UiStarting !in env.fails && Runner.Starting !in env.fails;
    var ends := starts && Runner.Succeeds(world, last) && Runner.Ending !in env.fails;
    var status := if ends then Done else if Runner.Reporting !in env.fails then Failed else if starts then Running else row.status;
    row' == if starts
            then row.(status := status, attempt := row.attempt + 1, starts := row.starts + 1,
                      rows := row.rows + Runner.RowsFrom(world, 0, last))
            else row.(status := status)
  }

  /** Gate or lock turned the job away. */
  lemma RefusedPhase(o: State, s: State, w: WorkerId, c: Copy, env: Runner.Setting) returns (t: State)
    requires Reaches(o, s) && At(s, w) == Refused(c) && c.job in s.jobs
    ensures Reaches(o, t) && Framed(s, t, w, c.job) && t.broker == s.broker && t.locks == s.locks && At(t, w).Idle? && c.job in t.jobs
    ensures t.jobs[c.job].status == if Runner.Refusing !in env.fails then Blocked
                                    else if Runner.Reporting !in env.fails then Failed else s.jobs[c.job].status
    ensures t.jobs[c.job] == s.jobs[c.job].(status := t.jobs[c.job].status)
  {
    hide Reaches, Framed;
    if Runner.Refusing in env.fails {
      var a := Go(o, s, w, c.job, Raises);
      t := ReportPhase(o, a, w, c, env);
      FramedTwice(s, a, t, w, c.job);
    } else {
      t := Go(o, s, w, c.job, StoresBlocked);
    }
  }

  /** A run that never gets into its section. */
  lemma OutsidePhase(o: State, s: State, w: WorkerId, c: Copy, who: Runner.Ident, env: Runner.Setting) returns (t: State)
    requires Reaches(o, s) && At(s, w) == Loaded(c) && c.job in s.jobs && s.degraded == env.degraded
    requires c.job == who.id && c.caseId == who.caseId && c.risk == who.risk && !Runner.Enters(who, env, s.locks)
    ensures Reaches(o, t) && Framed(s, t, w, c.job) && t.broker == s.broker && t.locks == s.locks && At(t, w).Idle? && c.job in t.jobs
    ensures t.jobs[c.job].status == if Runner.Refused(who, env, s.locks) then Blocked
                                    else if Runner.Reporting !in env.fails then Failed else s.jobs[c.job].status
    ensures t.jobs[c.job] == s.jobs[c.job].(status := t.jobs[c.job].status)
  {
    hide Reaches, Framed, Runner.Found;
    if !Runner.Found(who, env) {
      var a := Go(o, s, w, c.job, LoadFails);
      t := ReportPhase(o, a, w, c, env);
      FramedTwice(s, a, t, w, c.job);
    } else if env.degraded {
      var a := Go(o, s, w, c.job, GateRefuses);
      t := RefusedPhase(o, a, w, c, env);
      FramedTwice(s, a, t, w, c.job);
    } else {
      var a := Go(o, s, w, c.job, GatePasses(c.actions));
      t := AtLockPhase(o, a, w, c, env);
      FramedTwice(s, a, t, w, c.job);
    }
  }

  /** The acquire raises or finds the case locked. */
  lemma AtLockPhase(o: State, s: State, w: WorkerId, c: Copy, env: Runner.Setting) returns (t: State)
    requires Reaches(o, s) && At(s, w) == Gated(c) && c.job in s.jobs && c.risk.IsWrite()
    requires Runner.Acquiring in env.fails || !CanAcquire(s.locks, c.caseId)
    ensures Reaches(o, t) && Framed(s, t, w, c.job) && t.broker == s.broker && t.locks == s.locks && At(t, w).Idle? && c.job in t.jobs
    ensures t.jobs[c.job].status == if Runner.Acquiring !in env.fails && Runner.Refusing !in env.fails then Blocked
                                    else if Runner.Reporting !in env.fails then Failed else s.jobs[c.job].status
    ensures t.jobs[c.job] == s.jobs[c.job].(status := t.jobs[c.job].status)
  {
    hide Reaches, Framed;
    if Runner.Acquiring in env.fails {
      var a := Go(o, s, w, c.job, AcquireFails);
      t := ReportPhase(o, a, w, c, env);
      FramedTwice(s, a, t, w, c.job);
    } else {
      var a := Go(o, s, w, c.job, AcquireBusy);
      t := RefusedPhase(o, a, w, c, env);
      FramedTwice(s, a, t, w, c.job);
    }
  }

  /** Refinement: from any state in which process `w` is idle and the broker holds job
      `who`, the protocol has a run, of `w` alone, to a state in which the job's status,
      counters and rows and the lock owners are what `RunJob` ensures, for every setting
      and every world it may meet. */
  lemma TaskIsAProtocolRun(o: State, s: State, w: WorkerId, who: Runner.Ident, env: Runner.Setting, world: Runner.World)
    returns (t: State)
    requires Reaches(o, s) && At(s, w).Idle? && who.id in s.broker && who.id in s.jobs
    requires s.jobs[who.id].caseId == who.caseId && s.jobs[who.id].risk == who.risk && s.degraded == env.degraded
    ensures Reaches(o, t) && Framed(s, t, w, who.id) && At(t, w).Idle? && t.broker == s.broker - multiset{who.id}
    ensures t.locks == Runner.LocksLeft(s.locks, who, env)
    ensures who.id in t.jobs && t.jobs[who.id].status == Runner.StatusLeft(s.jobs[who.id].status, who, env, s.locks, world)
    ensures Runner.Trail(t.jobs[who.id].attempt, t.jobs[who.id].rows)
         == Runner.After(Runner.Trail(s.jobs[who.id].attempt, s.jobs[who.id].rows), Runner.OpOf(who, env, s.locks, world))
    ensures t.jobs[who.id].retries == s.jobs[who.id].retries
  {
    hide Runner.FindRecipe, Runner.RowsFrom, Runner.Succeeds, Runner.Dicts, Reaches, Framed;
    var c := CopyOf(s, who.id);
    var a := Go(o, s, w, who.id, Take(who.id));
    if !Runner.Enters(who, env, s.locks) {
      t := OutsidePhase(o, a, w, c, who, env);
      FramedTwice(s, a, t, w, who.id);
    } else {
      var c' := c.(actions := Runner.LastStep(who, env) - 2);
      hide Runner.LastStep;
      var b := GatePhase(o, a, w, c, c'.actions);
      t := EnteredPhase(o, b, w, c', env, world);
      FramedTwice(s, a, b, w, who.id);
      FramedTwice(s, b, t, w, who.id);
    }
  }

  /** Through the gate and, for a write job, the lock. */
  lemma GatePhase(o: State, s: State, w: WorkerId, c: Copy, n: nat) returns (t: State)
    requires Reaches(o, s) && At(s, w) == Loaded(c) && c.job in s.jobs
    requires c.risk.IsWrite() ==> !s.degraded && CanAcquire(s.locks, c.caseId)
    ensures Reaches(o, t) && Framed(s, t, w, c.job) && t.broker == s.broker && t.jobs == s.jobs
    ensures At(t, w) == Entered(c.(actions := n))
    ensures t.locks == if c.risk.IsWrite() then Acquired(s.locks, c.caseId, c.job) else s.locks
  {
    hide Reaches, Framed;
    var a := Go(o, s, w, c.job, GatePasses(n));
    t := Go(o, a, w, c.job, if c.risk.IsWrite() then AcquireOk else SkipsLock);
    FramedTwice(s, a, t, w, c.job);
  }
}
