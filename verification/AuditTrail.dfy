/** What the audit rows and the attempt counter of a job look like in every reachable
    state of the interleaved protocol, and where the degraded gate reaches. */
module AuditTrail {
  import opened BotTypes
  import opened CaseLock
  import opened JobProtocol
  import opened LockSafety

  // ---------- segments ----------

  /** One execution's rows: numbered 0, 1, 2, … and only the last may be in error,
      the first (recipe_meta) never. */
  ghost predicate IsSegment(seg: seq<StepRow>) {
    && |seg| > 0 && seg[0].ok
    && forall i | 0 <= i < |seg| :: seg[i].no == i && (i < |seg| - 1 ==> seg[i].ok)
  }

  function Flatten(segs: seq<seq<StepRow>>): seq<StepRow> {
    if |segs| == 0 then [] else Flatten(segs[..|segs| - 1]) + segs[|segs| - 1]
  }

  /** Locally: a row with number 0 is fine, any other follows a good row with the number before. */
  ghost predicate GoodRow(rows: seq<StepRow>, i: nat)
    requires i < |rows|
  {
    if rows[i].no == 0 then rows[i].ok else i > 0 && rows[i - 1].no + 1 == rows[i].no && rows[i - 1].ok
  }

  ghost predicate GoodRows(rows: seq<StepRow>) {
    forall i: nat | i < |rows| :: GoodRow(rows, i)
  }

  function Split(rows: seq<StepRow>): seq<seq<StepRow>>
    decreases |rows|
  {
    if |rows| == 0 || rows[|rows| - 1].no >= |rows| then []
    else
      var n := |rows| - 1 - rows[|rows| - 1].no;
      Split(rows[..n]) + [rows[n..]]
  }

  /** Counting back from a row numbered `k` one meets `k - 1`, …, 0, all in order. */
  lemma {:induction false} CountsBack(rows: seq<StepRow>, i: nat, d: nat)
    requires GoodRows(rows) && i < |rows| && d <= rows[i].no
    ensures d <= i && rows[i - d].no == rows[i].no - d && (d > 0 ==> rows[i - d].ok)
  {
    if d > 0 {
      CountsBack(rows, i, d - 1);
      assert GoodRow(rows, i - (d - 1));
    }
  }

  lemma LastSegment(rows: seq<StepRow>)
    requires GoodRows(rows) && |rows| > 0
    ensures rows[|rows| - 1].no < |rows| && IsSegment(rows[|rows| - 1 - rows[|rows| - 1].no..])
  {
    var last := |rows| - 1;
    CountsBack(rows, last, rows[last].no);
    var n := last - rows[last].no;
    var seg := rows[n..];
    forall i | 0 <= i < |seg| ensures seg[i].no == i && (i < |seg| - 1 ==> seg[i].ok) {
      CountsBack(rows, last, rows[last].no - i);
    }
    assert GoodRow(rows, n);
  }

  lemma {:induction false} GoodRowsSplit(rows: seq<StepRow>)
    requires GoodRows(rows)
    ensures Flatten(Split(rows)) == rows && forall seg | seg in Split(rows) :: IsSegment(seg)
    decreases |rows|
  {
    if |rows| > 0 {
      LastSegment(rows);
      var n := |rows| - 1 - rows[|rows| - 1].no;
      forall i: nat | i < n ensures GoodRow(rows[..n], i) { assert GoodRow(rows, i); }
      GoodRowsSplit(rows[..n]);
      assert Split(rows)[..|Split(rows)| - 1] == Split(rows[..n]);
    }
  }

  lemma {:induction false} SegmentsAreGood(segs: seq<seq<StepRow>>)
    requires forall seg | seg in segs :: IsSegment(seg)
    ensures GoodRows(Flatten(segs))
    decreases |segs|
  {
    if |segs| > 0 {
      var front, seg := segs[..|segs| - 1], segs[|segs| - 1];
      assert seg in segs && IsSegment(seg);
      SegmentsAreGood(front);
      var rows := Flatten(segs);
      var n := |Flatten(front)|;
      forall i: nat | i < |rows| ensures GoodRow(rows, i) {
        if i < n { assert GoodRow(Flatten(front), i); }
        else { assert rows[i] == seg[i - n]; assert i > n ==> rows[i - 1] == seg[i - n - 1]; }
      }
    }
  }

  /** The local condition says exactly that the rows are executions laid end to end. */
  lemma GoodRowsAreSegments(rows: seq<StepRow>)
    ensures GoodRows(rows) <==>
            exists segs :: rows == Flatten(segs) && forall seg | seg in segs :: IsSegment(seg)
  {
    if GoodRows(rows) {
      GoodRowsSplit(rows);
    }
    if segs :| rows == Flatten(segs) && forall seg | seg in segs :: IsSegment(seg) {
      SegmentsAreGood(segs);
    }
  }

  // ---------- the invariant ----------

  predicate EndsClean(rows: seq<StepRow>) {
    |rows| >= 2 && rows[|rows| - 1].no >= 1 && rows[|rows| - 1].ok
  }

  /** The next number continues the rows written so far. */
  predicate Continues(rows: seq<StepRow>, next: nat) {
    next == 0 || (|rows| > 0 && rows[|rows| - 1] == StepRow(next - 1, true))
  }

  ghost predicate JobTrail(s: State, j: JobId)
    requires j in s.jobs
  {
    var row := s.jobs[j];
    && GoodRows(row.rows)
    && (forall w | WorksOn(s, w, j) :: Continues(row.rows, s.workers[w].next))
    && (forall w, v | WorksOn(s, w, j) && WorksOn(s, v, j) :: w == v)
    && (row.status.Done? ==> EndsClean(row.rows) && forall w :: !WorksOn(s, w, j))
  }

  ghost predicate TrailInv(s: State) {
    && (forall j | j in s.jobs && j !in s.overlapped :: JobTrail(s, j))
    && (forall j | j in s.overlapped && j in s.jobs :: !s.jobs[j].risk.IsWrite())
    && (forall j | j in s.overlapped :: j in s.jobs)
  }

  lemma GoodRowsSnoc(rows: seq<StepRow>, next: nat, ok: bool)
    requires GoodRows(rows) && Continues(rows, next) && (next == 0 ==> ok)
    ensures GoodRows(rows + [StepRow(next, ok)])
  {
    var more := rows + [StepRow(next, ok)];
    forall i: nat | i < |more| ensures GoodRow(more, i) {
      if i < |rows| { assert GoodRow(rows, i); }
    }
  }

  lemma TrailStepOther(s: State, e: Event, j: JobId)
    requires TrailInv(s) && CopiesAgree(s) && Enabled(s, e) && j in s.jobs && j !in s.overlapped
    requires !e.By? || At(s, e.w).Idle? || At(s, e.w).c.job != j
    ensures JobTrail(Next(s, e), j)
  {
    assert JobTrail(s, j);
    var t := Next(s, e);
    assert t.jobs[j] == s.jobs[j];
    forall w | WorksOn(t, w, j) ensures WorksOn(s, w, j) && t.workers[w] == s.workers[w] {}
  }

  lemma TrailStepOwn(s: State, e: Event, j: JobId)
    requires TrailInv(s) && CopiesAgree(s) && Enabled(s, e) && j in s.jobs && j !in Next(s, e).overlapped
    requires e.By? && !At(s, e.w).Idle? && At(s, e.w).c.job == j
    ensures JobTrail(Next(s, e), j)
  {
    assert j !in s.overlapped && JobTrail(s, j);
    var t, p := Next(s, e), At(s, e.w);
    if e.act.AppendsRow? {
      assert WorksOn(s, e.w, j);
      GoodRowsSnoc(s.jobs[j].rows, p.next, e.act.ok);
    }
    if e.act.StoresRunning? {
      assert forall v :: v != e.w ==> !WorksOn(s, v, j);
    }
    if e.act.Completes? {
      assert WorksOn(s, e.w, j);
      CountsBack(s.jobs[j].rows, |s.jobs[j].rows| - 1, 1);
    }
    assert forall w | WorksOn(t, w, j) && w != e.w :: WorksOn(s, w, j);
    assert WorksOn(s, e.w, j) || e.act.StoresRunning? || !WorksOn(t, e.w, j);
  }

  /** Two processes never write rows for the same write job. */
  lemma WriteNeverOverlaps(s: State, e: Event)
    requires LockInv(s) && TrailInv(s) && Enabled(s, e)
    ensures forall j | j in Next(s, e).overlapped ::
              j in Next(s, e).jobs && !Next(s, e).jobs[j].risk.IsWrite()
  {
    ColumnsStay(s, e);
    if e.By? && e.act.StoresRunning? {
      var c := At(s, e.w).c;
      if v :| v in s.workers && v != e.w && WorksOn(s, v, c.job) && c.risk.IsWrite() {
        assert Holds(s, v, c.caseId) && Holds(s, e.w, c.caseId);
        assert false;
      }
    }
  }

  lemma TrailInvStep(s: State, e: Event)
    requires LockInv(s) && TrailInv(s) && Enabled(s, e)
    ensures TrailInv(Next(s, e))
  {
    var t := Next(s, e);
    WriteNeverOverlaps(s, e);
    forall j | j in t.jobs && j !in t.overlapped ensures JobTrail(t, j) {
      if j !in s.jobs {
        assert forall w :: !WorksOn(t, w, j);
      } else if e.By? && !At(s, e.w).Idle? && At(s, e.w).c.job == j {
        TrailStepOwn(s, e, j);
      } else {
        TrailStepOther(s, e, j);
      }
    }
  }

  lemma {:induction false} TrailInvAlways(ss: seq<State>, es: seq<Event>, k: nat)
    requires IsRun(ss, es) && k <= |es| && LockInv(ss[0]) && TrailInv(ss[0])
    ensures TrailInv(ss[k])
  {
    if k > 0 {
      TrailInvAlways(ss, es, k - 1);
      LockInvAlways(ss, es, k - 1);
      assert StepAt(ss, es, k - 1);
      TrailInvStep(ss[k - 1], es[k - 1]);
    }
  }

  lemma TrailInvReachable(s: State)
    requires Reachable(s)
    ensures LockInv(s) && TrailInv(s)
  {
    LockInvReachable(s);
    var ss, es :| IsRun(ss, es) && ss[0] == INITIAL && ss[|es|] == s;
    TrailInvAlways(ss, es, |es|);
  }

  // ---------- main results ----------

  /** In every reachable state the rows of a write job, and of every read-only job
      whose runs did not overlap, are whole executions laid end to end; if the job is
      DONE its last row is not an error and nobody is adding rows. */
  lemma AuditTrailIsSegments(s: State, j: JobId)
    requires Reachable(s) && j in s.jobs
    requires s.jobs[j].risk.IsWrite() || j !in s.overlapped
    ensures exists segs :: s.jobs[j].rows == Flatten(segs) && forall seg | seg in segs :: IsSegment(seg)
    ensures s.jobs[j].status.Done? ==> EndsClean(s.jobs[j].rows) && forall w :: !WorksOn(s, w, j)
  {
    TrailInvReachable(s);
    assert JobTrail(s, j);
    GoodRowsAreSegments(s.jobs[j].rows);
  }

  /** When a run stores DONE, its last 2 + n rows (n dict actions) are one execution
      without any error: recipe_meta, navigate and one row for each action. */
  lemma DoneSegmentIsComplete(s: State, w: WorkerId)
    requires Reachable(s) && Enabled(s, By(w, Completes))
    requires At(s, w).c.risk.IsWrite() || At(s, w).c.job !in s.overlapped
    ensures var c := At(s, w).c;
            var rows := Next(s, By(w, Completes)).jobs[c.job].rows;
            && Next(s, By(w, Completes)).jobs[c.job].status == Done
            && |rows| >= 2 + c.actions
            && IsSegment(rows[|rows| - (2 + c.actions)..])
            && forall i | |rows| - (2 + c.actions) <= i < |rows| :: rows[i].ok
  {
    TrailInvReachable(s);
    var c := At(s, w).c;
    TrailContinues(s, w);
    hide Reachable, Reaches, LockInv, TrailInv, GoodRows, IsSegment;
    LastRowsComplete(s.jobs[c.job].rows, 2 + c.actions);
  }

  lemma TrailContinues(s: State, w: WorkerId)
    requires LockInv(s) && TrailInv(s) && At(s, w).Working? && At(s, w).c.job in s.jobs
    requires At(s, w).c.risk.IsWrite() || At(s, w).c.job !in s.overlapped
    ensures var rows := s.jobs[At(s, w).c.job].rows; GoodRows(rows) && Continues(rows, At(s, w).next)
  {
    hide GoodRows;
    assert JobTrail(s, At(s, w).c.job) && WorksOn(s, w, At(s, w).c.job);
  }

  /** Rows that continue to number `n` end in one whole good segment of `n` rows. */
  lemma LastRowsComplete(rows: seq<StepRow>, n: nat)
    requires GoodRows(rows) && Continues(rows, n) && n > 0
    ensures |rows| >= n && IsSegment(rows[|rows| - n..])
    ensures forall i | |rows| - n <= i < |rows| :: rows[i].ok
  {
    LastSegment(rows);
    var seg := rows[|rows| - n..];
    forall i | |rows| - n <= i < |rows| ensures rows[i].ok {
      assert rows[i] == seg[i - (|rows| - n)];
    }
  }

  // ---------- the attempt counter ----------

  /** `attempt` counts stored starts and retries exactly until a stale copy is stored,
      and is strictly behind for ever after. */
  ghost predicate CountInv(s: State) {
    && (forall j | j in s.jobs ::
          if j in s.lost then s.jobs[j].attempt < s.jobs[j].Version() else s.jobs[j].attempt == s.jobs[j].Version())
    && (forall w | w in s.workers && !s.workers[w].Idle? :: CopyCounts(s, s.workers[w].c))
    && s.lost <= s.jobs.Keys
  }

  ghost predicate CopyCounts(s: State, c: Copy) {
    && c.job in s.jobs && c.attempt <= c.seen <= s.jobs[c.job].Version()
    && (c.attempt == c.seen ==> c.job !in s.lost || c.seen < s.jobs[c.job].Version())
    && (c.attempt < c.seen ==> c.job in s.lost)
  }

  lemma CountJobsStep(s: State, e: Event, j: JobId)
    requires CopiesAgree(s) && CountInv(s) && Enabled(s, e) && j in Next(s, e).jobs
    ensures var t := Next(s, e);
            && (if j in t.lost then t.jobs[j].attempt < t.jobs[j].Version() else t.jobs[j].attempt == t.jobs[j].Version())
            && (j in s.jobs ==> s.jobs[j].Version() <= t.jobs[j].Version())
            && (j in s.lost ==> j in t.lost)
            && (j in t.lost && j !in s.lost ==> j in s.jobs && s.jobs[j].Version() < t.jobs[j].Version())
  {
    if e.By? && e.w in s.workers && !s.workers[e.w].Idle? {
      assert CopyCounts(s, s.workers[e.w].c);
    }
  }

  lemma CountCopiesStep(s: State, e: Event, w: WorkerId)
    requires CopiesAgree(s) && CountInv(s) && Enabled(s, e)
    requires w in Next(s, e).workers && !Next(s, e).workers[w].Idle?
    ensures CopyCounts(Next(s, e), Next(s, e).workers[w].c)
  {
    var t := Next(s, e);
    var c := t.workers[w].c;
    ColumnsStay(s, e);
    if w in s.workers && !s.workers[w].Idle? {
      var b := s.workers[w].c;
      assert CopyCounts(s, b);
      assert b.job == c.job && b.attempt == c.attempt && b.seen == c.seen;
    } else {
      assert c.job in s.jobs && c == CopyOf(s, c.job);
    }
    CountJobsStep(s, e, c.job);
  }

  lemma CountInvStep(s: State, e: Event)
    requires CopiesAgree(s) && CountInv(s) && Enabled(s, e)
    ensures CountInv(Next(s, e))
  {
    var t := Next(s, e);
    ColumnsStay(s, e);
    forall j | j in t.jobs
      ensures if j in t.lost then t.jobs[j].attempt < t.jobs[j].Version() else t.jobs[j].attempt == t.jobs[j].Version()
    {
      CountJobsStep(s, e, j);
    }
    forall w | w in t.workers && !t.workers[w].Idle? ensures CopyCounts(t, t.workers[w].c) {
      CountCopiesStep(s, e, w);
    }
    assert t.lost <= s.jobs.Keys;
  }

  lemma {:induction false} CountInvAlways(ss: seq<State>, es: seq<Event>, k: nat)
    requires IsRun(ss, es) && k <= |es| && LockInv(ss[0]) && CountInv(ss[0])
    ensures CountInv(ss[k])
  {
    if k > 0 {
      CountInvAlways(ss, es, k - 1);
      LockInvAlways(ss, es, k - 1);
      assert StepAt(ss, es, k - 1);
      CountInvStep(ss[k - 1], es[k - 1]);
    }
  }

  lemma CountInvReachable(s: State)
    requires Reachable(s)
    ensures CountInv(s)
  {
    var ss, es :| IsRun(ss, es) && ss[0] == INITIAL && ss[|es|] == s;
    CountInvAlways(ss, es, |es|);
  }

  /** `attempt` never exceeds the stored starts plus retries, and equals them exactly
      when no start or retry of the job was ever computed from an outdated copy. */
  lemma AttemptCountsExactly(s: State, j: JobId)
    requires Reachable(s) && j in s.jobs
    ensures s.jobs[j].attempt <= s.jobs[j].starts + s.jobs[j].retries
    ensures s.jobs[j].attempt == s.jobs[j].starts + s.jobs[j].retries <==> j !in s.lost
  {
    CountInvReachable(s);
  }

  // ---------- the degraded gate ----------

  /** Past the gate with a write job: waiting for the lock or holding it. */
  predicate PastGate(s: State, w: WorkerId, j: JobId) {
    (At(s, w).Gated? || InSection(At(s, w))) && At(s, w).c.job == j && At(s, w).c.risk.IsWrite()
  }

  /** As long as the flag stays on nobody passes the gate with a write job: whoever is
      past it at the end was past it, for the same job, when the flag was seen on. */
  lemma {:induction false} DegradedAdmitsNoWrite(ss: seq<State>, es: seq<Event>, k: nat, w: WorkerId, j: JobId)
    requires IsRun(ss, es) && k <= |es| && ss[0].degraded
    requires forall i | 0 <= i < |es| :: es[i] != SetDegraded(false)
    requires PastGate(ss[k], w, j)
    ensures ss[k].degraded && PastGate(ss[0], w, j)
    decreases k
  {
    if k > 0 {
      DegradedStays(ss, es, k - 1);
      assert StepAt(ss, es, k - 1);
      assert es[k - 1] != SetDegraded(false);
      assert PastGate(ss[k - 1], w, j);
      DegradedAdmitsNoWrite(ss, es, k - 1, w, j);
    }
  }

  lemma {:induction false} DegradedStays(ss: seq<State>, es: seq<Event>, k: nat)
    requires IsRun(ss, es) && k <= |es| && ss[0].degraded
    requires forall i | 0 <= i < |es| :: es[i] != SetDegraded(false)
    ensures ss[k].degraded
  {
    if k > 0 {
      DegradedStays(ss, es, k - 1);
      assert StepAt(ss, es, k - 1);
      assert es[k - 1] != SetDegraded(false);
    }
  }

  // ---------- what does not hold ----------

  const READER := Copy(7, 1, ReadOnly, 0, 0, 0)

  /** The read-only job 7 delivered twice, both copies past the gate before either starts. */
  lemma TwoGated() returns (s: State)
    ensures Reachable(s)
    ensures s == State(map[7 := Job(1, ReadOnly, Queued, 0, [], 0, 0)], map[], multiset{},
                       map[0 := Gated(Copy(7, 1, ReadOnly, 0, 0, 0)), 1 := Gated(Copy(7, 1, ReadOnly, 0, 0, 0))],
                       false, {}, {}, {})
  {
    hide Reachable, Reaches;
    s := SecondTaken();
    s := ThenMoves(s, 1, GatePasses(0));
  }

  lemma SecondTaken() returns (s: State)
    ensures Reachable(s)
    ensures s == State(map[7 := Job(1, ReadOnly, Queued, 0, [], 0, 0)], map[], multiset{},
                       map[0 := Gated(Copy(7, 1, ReadOnly, 0, 0, 0)), 1 := Loaded(Copy(7, 1, ReadOnly, 0, 0, 0))],
                       false, {}, {}, {})
  {
    hide Reachable, Reaches;
    s := FirstGated(ReadOnly, 0);
    s := Then(s, Dispatch(7));
    s := ThenMoves(s, 1, Take(7));
  }

  lemma TwoTrying() returns (s: State)
    ensures Reachable(s)
    ensures s == State(map[7 := Job(1, ReadOnly, Queued, 0, [], 0, 0)], map[], multiset{},
                       map[0 := Trying(Copy(7, 1, ReadOnly, 0, 0, 0)), 1 := Trying(Copy(7, 1, ReadOnly, 0, 0, 0))],
                       false, {}, {}, {})
  {
    hide Reachable, Reaches;
    s := TwoGated();
    s := ThenMoves(s, 0, SkipsLock);
    s := ThenMoves(s, 0, UiStarts);
    s := ThenMoves(s, 1, SkipsLock);
    s := ThenMoves(s, 1, UiStarts);
  }

  lemma OneWorking() returns (s: State)
    ensures Reachable(s) && At(s, 0) == Working(READER, 0) && At(s, 1) == Trying(READER)
    ensures 7 in s.jobs && s.jobs[7].risk == ReadOnly && s.jobs[7].rows == [] && s.jobs[7].starts == 1
  {
    hide Reachable, Reaches;
    s := TwoTrying();
    s := Then(s, By(0, StoresRunning));
  }

  lemma TwoWorking() returns (s: State)
    ensures Reachable(s) && At(s, 0) == Working(READER, 0) && At(s, 1) == Working(READER, 0)
    ensures 7 in s.jobs && s.jobs[7].risk == ReadOnly && s.jobs[7].rows == []
    ensures s.jobs[7].starts == 2 && s.jobs[7].attempt == 1
  {
    hide Reachable, Reaches;
    s := OneWorking();
    s := Then(s, By(1, StoresRunning));
  }

  lemma TwoMetaRows() returns (s: State)
    ensures Reachable(s) && At(s, 0) == Working(READER, 1) && At(s, 1) == Working(READER, 1)
    ensures 7 in s.jobs && s.jobs[7].risk == ReadOnly && s.jobs[7].rows == [StepRow(0, true), StepRow(0, true)]
    ensures s.jobs[7].starts == 2 && s.jobs[7].attempt == 1
  {
    hide Reachable, Reaches;
    s := TwoWorking();
    s := Then(s, By(0, AppendsRow(true)));
    s := Then(s, By(1, AppendsRow(true)));
  }

  /** For read-only jobs a double delivery really spoils the trail and the counter: two
      started runs, `attempt` 1, and rows that are not executions laid end to end. */
  lemma DoubleDeliveryInterleaves() returns (s: State)
    ensures Reachable(s) && 7 in s.jobs && s.jobs[7].risk.ReadOnly?
    ensures s.jobs[7].starts == 2 && s.jobs[7].attempt == 1
    ensures !exists segs :: s.jobs[7].rows == Flatten(segs) && forall seg | seg in segs :: IsSegment(seg)
  {
    hide Reachable, Reaches;
    s := TwoMetaRows();
    s := Then(s, By(0, AppendsRow(true)));
    s := Then(s, By(1, AppendsRow(true)));
    NotLaidEndToEnd(s.jobs[7].rows);
  }

  lemma NotLaidEndToEnd(rows: seq<StepRow>)
    requires rows == [StepRow(0, true), StepRow(0, true), StepRow(1, true), StepRow(1, true)]
    ensures !exists segs :: rows == Flatten(segs) && forall seg | seg in segs :: IsSegment(seg)
  {
    assert !GoodRow(rows, 3);
    GoodRowsAreSegments(rows);
  }
}
