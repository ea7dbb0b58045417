/** Many Celery workers executing `run_job` / `run_recipe` at once, together with
    the scheduler, the operator endpoints and crashes, as one interleaved state machine.

    A step is one database statement or transaction, one broker delivery, or one
    UI call. Nothing is assumed about the order of steps. */
module JobProtocol {
  import opened BotTypes
  import opened CaseLock

  type WorkerId = nat

  datatype StepRow = StepRow(no: nat, ok: bool)

  /** A `JobRun` row with its `JobStep` rows. The last two fields are not columns:
      they count how often a worker stored RUNNING and how often `retry` was stored. */
  datatype Job = Job(caseId: CaseId, risk: RiskLevel, status: JobStatus, attempt: nat,
                     rows: seq<StepRow>, starts: nat, retries: nat)
  {
    function Version(): nat { starts + retries }
  }

  /** The copy of a row a process holds in memory, the version it was read at, and
      the number of dict actions of the recipe that it will execute. */
  datatype Copy = Copy(job: JobId, caseId: CaseId, risk: RiskLevel, attempt: nat, seen: nat, actions: nat)

  datatype Pc =
    | Idle
    | Loaded(c: Copy)                 // row fetched by run_job
    | Gated(c: Copy)                  // recipe found, degraded gate passed
    | Refused(c: Copy)                // gate or lock said no, BLOCKED not stored yet
    | Entered(c: Copy)                // lock held (write) or not needed, UI not started
    | Trying(c: Copy)                 // inside try, RUNNING not stored yet
    | Working(c: Copy, next: nat)     // next step number to be appended
    | Finishing(c: Copy, done: bool)  // in finally, lock not released yet
    | Failing(c: Copy)                // exception reached run_job, FAILED not stored yet
    | Retrying(c: Copy)               // retry endpoint has read the row
    | Cancelling(c: Copy)             // cancel endpoint has read the row

  datatype Act =
    | Take(j: JobId) | LoadFails | GateRefuses | GatePasses(actions: nat)
    | AcquireOk | AcquireBusy | AcquireFails | SkipsLock
    | UiStarts | UiStartFails | StoresRunning | AppendsRow(ok: bool) | Raises | Completes
    | Releases | ReleaseFails | StoresBlocked | StoresFailed | Crashes
    | RetryReads(rj: JobId) | RetryStores | CancelReads(cj: JobId) | CancelStores

  datatype Event =
    | By(w: WorkerId, act: Act)
    | Create(j: JobId, caseId: CaseId, risk: RiskLevel)
    | Dispatch(d: JobId)
    | SetDegraded(on: bool)

  /** `leaked`, `overlapped` and `lost` are bookkeeping: cases whose lock lost its
      worker, jobs two workers were writing rows for at the same time, and jobs whose
      `attempt` was once stored from a copy that was out of date. */
  datatype State = State(
    jobs: map<JobId, Job>, locks: Owners, broker: multiset<JobId>, workers: map<WorkerId, Pc>,
    degraded: bool, leaked: set<CaseId>, overlapped: set<JobId>, lost: set<JobId>)

  function At(s: State, w: WorkerId): Pc {
    if w in s.workers then s.workers[w] else Idle
  }

  /** Between a successful acquire (or the skip of a read-only run) and the release. */
  predicate InSection(p: Pc) {
    p.Entered? || p.Trying? || p.Working? || p.Finishing?
  }

  predicate Holds(s: State, w: WorkerId, c: CaseId) {
    InSection(At(s, w)) && At(s, w).c.risk.IsWrite() && At(s, w).c.caseId == c
  }

  predicate WorksOn(s: State, w: WorkerId, j: JobId) {
    At(s, w).Working? && At(s, w).c.job == j
  }

  predicate Enabled(s: State, e: Event) {
    match e
    case Create(j, _, _) => j !in s.jobs
    case Dispatch(j) => j in s.jobs
    case SetDegraded(_) => true
    case By(w, act) =>
      var p := At(s, w);
      match act
      case Take(j) => p.Idle? && j in s.broker && j in s.jobs
      case LoadFails => p.Loaded?
      case GateRefuses => p.Loaded? && s.degraded && p.c.risk.IsWrite()
      case GatePasses(_) => p.Loaded? && !(s.degraded && p.c.risk.IsWrite())
      case AcquireOk => p.Gated? && p.c.risk.IsWrite() && CanAcquire(s.locks, p.c.caseId)
      case AcquireBusy => p.Gated? && p.c.risk.IsWrite() && !CanAcquire(s.locks, p.c.caseId)
      case AcquireFails => p.Gated? && p.c.risk.IsWrite()
      case SkipsLock => p.Gated? && !p.c.risk.IsWrite()
      case UiStarts => p.Entered?
      case UiStartFails => p.Entered?
      case StoresRunning => p.Trying? && p.c.job in s.jobs
      case AppendsRow(ok) => p.Working? && p.c.job in s.jobs && p.next < 2 + p.c.actions && (p.next == 0 ==> ok)
      case Raises => p.Trying? || p.Working? || p.Refused?
      case Completes => p.Working? && p.c.job in s.jobs && p.next == 2 + p.c.actions
      case Releases => p.Finishing?
      case ReleaseFails => p.Finishing?
      case StoresBlocked => p.Refused? && p.c.job in s.jobs
      case StoresFailed => p.Failing? && p.c.job in s.jobs
      case Crashes => !p.Idle?
      case RetryReads(j) => p.Idle? && j in s.jobs
      case RetryStores => p.Retrying? && p.c.job in s.jobs
      case CancelReads(j) => p.Idle? && j in s.jobs && !s.jobs[j].status.Done? && !s.jobs[j].status.Failed?
      case CancelStores => p.Cancelling? && p.c.job in s.jobs
  }

  /** A copy of the row as `objects.get` returns it. */
  function CopyOf(s: State, j: JobId): Copy
    requires j in s.jobs
  {
    var row := s.jobs[j];
    Copy(j, row.caseId, row.risk, row.attempt, row.Version(), 0)
  }

  /** Where the acting process goes next. A released run that was not done goes on to
      the FAILED handler; an error row sends the run to `finally`. */
  function PcAfter(s: State, w: WorkerId, act: Act): Pc
    requires Enabled(s, By(w, act))
  {
    var p := At(s, w);
    match act
    case Take(j) => Loaded(CopyOf(s, j))
    case LoadFails => Failing(p.c)
    case GateRefuses => Refused(p.c)
    case GatePasses(n) => Gated(p.c.(actions := n))
    case AcquireOk => Entered(p.c)
    case AcquireBusy => Refused(p.c)
    case AcquireFails => Failing(p.c)
    case SkipsLock => Entered(p.c)
    case UiStarts => Trying(p.c)
    case UiStartFails => Failing(p.c)
    case StoresRunning => Working(p.c, 0)
    case AppendsRow(ok) => if ok then Working(p.c, p.next + 1) else Finishing(p.c, false)
    case Raises => if p.Refused? then Failing(p.c) else Finishing(p.c, false)
    case Completes => Finishing(p.c, true)
    case Releases => if p.done then Idle else Failing(p.c)
    case ReleaseFails => if p.done then Idle else Failing(p.c)
    case StoresBlocked => Idle
    case StoresFailed => Idle
    case Crashes => Idle
    case RetryReads(j) => Retrying(CopyOf(s, j))
    case RetryStores => Idle
    case CancelReads(j) => Cancelling(CopyOf(s, j))
    case CancelStores => Idle
  }

  predicate StoresRow(act: Act) {
    act.StoresRunning? || act.AppendsRow? || act.Completes? || act.StoresBlocked? || act.StoresFailed?
    || act.RetryStores? || act.CancelStores?
  }

  /** The row of the job after a store. `attempt` is computed from the copy, not from
      the stored column, and only the listed columns are written. */
  function RowAfter(p: Pc, act: Act, row: Job): Job
    requires StoresRow(act) && !p.Idle? && (act.AppendsRow? ==> p.Working?)
  {
    match act
    case StoresRunning => row.(status := Running, attempt := p.c.attempt + 1, starts := row.starts + 1)
    case AppendsRow(ok) => row.(rows := row.rows + [StepRow(p.next, ok)])
    case Completes => row.(status := Done)
    case StoresBlocked => row.(status := Blocked)
    case StoresFailed => row.(status := Failed)
    case RetryStores => row.(status := Queued, attempt := p.c.attempt + 1, retries := row.retries + 1)
    case CancelStores => row.(status := Quarantined)
  }

  function JobsAfter(s: State, w: WorkerId, act: Act): map<JobId, Job>
    requires Enabled(s, By(w, act))
  {
    var p := At(s, w);
    if StoresRow(act) then s.jobs[p.c.job := RowAfter(p, act, s.jobs[p.c.job])] else s.jobs
  }

  function LocksAfter(s: State, w: WorkerId, act: Act): Owners
    requires Enabled(s, By(w, act))
  {
    var p := At(s, w);
    match act
    case AcquireOk => Acquired(s.locks, p.c.caseId, p.c.job)
    case Releases => Released(s.locks, p.c.caseId, p.c.job)
    case _ => s.locks
  }

  /** Forgetting the process of a write run in its section leaves the case locked. */
  function LeakedAfter(s: State, w: WorkerId, act: Act): set<CaseId>
    requires Enabled(s, By(w, act))
  {
    var p := At(s, w);
    if (act.UiStartFails? || act.ReleaseFails? || act.Crashes?) && InSection(p) && p.c.risk.IsWrite()
    then s.leaked + {p.c.caseId} else s.leaked
  }

  function OverlappedAfter(s: State, w: WorkerId, act: Act): set<JobId>
    requires Enabled(s, By(w, act))
  {
    var p := At(s, w);
    if act.StoresRunning? && exists v | v in s.workers :: v != w && WorksOn(s, v, p.c.job)
    then s.overlapped + {p.c.job} else s.overlapped
  }

  /** Storing `attempt` from a copy read at an older version loses an update. */
  function LostAfter(s: State, w: WorkerId, act: Act): set<JobId>
    requires Enabled(s, By(w, act))
  {
    var p := At(s, w);
    if (act.StoresRunning? || act.RetryStores?) && p.c.seen != s.jobs[p.c.job].Version()
    then s.lost + {p.c.job} else s.lost
  }

  function Next(s: State, e: Event): State
    requires Enabled(s, e)
  {
    match e
    case By(w, act) =>
      State(JobsAfter(s, w, act), LocksAfter(s, w, act),
            if act.Take? then s.broker - multiset{act.j} else s.broker,
            s.workers[w := PcAfter(s, w, act)], s.degraded,
            LeakedAfter(s, w, act), OverlappedAfter(s, w, act), LostAfter(s, w, act))
    case Create(j, c, risk) => s.(jobs := s.jobs[j := Job(c, risk, Queued, 0, [], 0, 0)])
    case Dispatch(j) => s.(broker := s.broker + multiset{j})
    case SetDegraded(on) => s.(degraded := on)
  }

  const INITIAL := State(map[], map[], multiset{}, map[], false, {}, {}, {})

  ghost predicate StepAt(ss: seq<State>, es: seq<Event>, i: nat)
    requires i < |es| && |ss| == |es| + 1
  {
    Enabled(ss[i], es[i]) && ss[i + 1] == Next(ss[i], es[i])
  }

  /** A run: the states it passes through and the events between them. */
  ghost predicate IsRun(ss: seq<State>, es: seq<Event>) {
    |ss| == |es| + 1 && forall i: nat | i < |es| :: StepAt(ss, es, i)
  }

  /** A run of which every event is one of `ok`. */
  ghost predicate RunOf(ss: seq<State>, es: seq<Event>, ok: Event -> bool) {
    IsRun(ss, es) && forall i: nat | i < |es| :: ok(es[i])
  }

  /** Some such run leads from `o` to `s`. */
  ghost predicate LeadsTo(o: State, s: State, ok: Event -> bool) {
    exists ss, es :: RunOf(ss, es, ok) && ss[0] == o && ss[|es|] == s
  }

  const ANY := (e: Event) => true

  ghost predicate Reaches(s: State, t: State) {
    LeadsTo(s, t, ANY)
  }

  ghost predicate Reachable(s: State) {
    Reaches(INITIAL, s)
  }

  lemma LeadsToItself(s: State, ok: Event -> bool)
    ensures LeadsTo(s, s, ok)
  {
    assert RunOf([s], [], ok);
  }

  lemma Extend(o: State, s: State, e: Event, ok: Event -> bool)
    requires LeadsTo(o, s, ok) && Enabled(s, e) && ok(e)
    ensures LeadsTo(o, Next(s, e), ok)
  {
    var ss, es :| RunOf(ss, es, ok) && ss[0] == o && ss[|es|] == s;
    var t := Next(s, e);
    var ss', es' := ss + [t], es + [e];
    hide Next, Enabled;
    forall i: nat | i < |es'| ensures StepAt(ss', es', i) && ok(es'[i]) {
      if i < |es| { assert StepAt(ss, es, i) && ok(es[i]); }
    }
    assert RunOf(ss', es', ok) && ss'[0] == o && ss'[|es'|] == t;
  }
}
