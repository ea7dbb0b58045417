/** The `JobRun` table as the planner and the dispatcher see it: rows in order of
    creation, so that a row's position is its id. Between any two statements of the
    scheduler other processes may change the table. */
module JobTable {
  import opened BotTypes
  import opened Collections

  type Id = nat

  /** Who created a row. Not a column of the table: for a planned row, the base interval
      and the scope of its plan item. */
  datatype Origin = Other | Planned(base: int, perDebtor: bool)

  datatype Row = Row(caseId: Id, debtor: Option<Id>, recipe: Id, risk: RiskLevel, priority: int,
                     status: JobStatus, created: int, origin: Origin)
  {
    /** What `_count_running` counts: queued rows as well as running ones. */
    predicate Active() { status.Queued? || status.Running? }
  }

  function Count(jobs: seq<Row>, p: Row -> bool): nat {
    if |jobs| == 0 then 0 else Count(jobs[..|jobs| - 1], p) + (if p(jobs[|jobs| - 1]) then 1 else 0)
  }

  function CountActive(jobs: seq<Row>): nat {
    Count(jobs, (r: Row) => r.Active())
  }

  /** The ids of the rows that satisfy `p`. */
  function Where(jobs: seq<Row>, p: Row -> bool): set<nat> {
    set k: nat | k < |jobs| && p(jobs[k])
  }

  /** Counting rows is counting their ids. */
  lemma {:induction false} CountIsCardinality(jobs: seq<Row>, p: Row -> bool)
    ensures Count(jobs, p) == |Where(jobs, p)|
    decreases |jobs|
  {
    if |jobs| > 0 {
      var last := |jobs| - 1;
      CountIsCardinality(jobs[..last], p);
      var front := Where(jobs[..last], p);
      assert Where(jobs, p) == if p(jobs[last]) then front + {last} else front;
    } else {
      assert Where(jobs, p) == {};
    }
  }

  /** If every row of `jobs` that satisfies `p` satisfies it in `later`, there are no fewer. */
  lemma {:induction false} CountGrows(jobs: seq<Row>, later: seq<Row>, p: Row -> bool)
    requires |jobs| <= |later| && forall k | 0 <= k < |jobs| && p(jobs[k]) :: p(later[k])
    ensures Count(jobs, p) <= Count(later, p)
  {
    CountIsCardinality(jobs, p);
    CountIsCardinality(later, p);
    SubsetSize(Where(jobs, p), Where(later, p));
  }

  // ---------- other processes ----------

  /** What the other processes do to the table before the `n`-th statement of a tick, the
      clock that statement reads, and the recipes it finds paused. */
  datatype World = World(others: (nat, seq<Row>) -> seq<Row>, clock: nat -> int, paused: nat -> set<Id>)

  /** The table and the number of statements executed so far. */
  datatype Db = Db(jobs: seq<Row>, step: nat)

  /** The table as the next statement finds it. */
  function Look(s: Db, w: World): Db {
    Db(w.others(s.step, s.jobs), s.step + 1)
  }

  function Looks(s: Db, w: World, n: nat): Db {
    if n == 0 then s else Look(Looks(s, w, n - 1), w)
  }

  /** Rows stay where they are; only their status and priority change. */
  ghost predicate Kept(jobs: seq<Row>, later: seq<Row>) {
    && |jobs| <= |later|
    && forall k | 0 <= k < |jobs| :: later[k] == jobs[k].(status := later[k].status, priority := later[k].priority)
  }

  /** No row leaves QUEUED and RUNNING. */
  ghost predicate KeepsActive(jobs: seq<Row>, later: seq<Row>) {
    |jobs| <= |later| && forall k | 0 <= k < |jobs| && jobs[k].Active() :: later[k].Active()
  }

  ghost predicate Lawful(w: World) {
    forall n: nat, jobs: seq<Row> :: Kept(jobs, w.others(n, jobs))
  }

  ghost predicate Steady(w: World) {
    forall n: nat, jobs: seq<Row> :: KeepsActive(jobs, w.others(n, jobs))
  }

  ghost predicate Quiet(w: World) {
    forall n: nat, jobs: seq<Row> :: w.others(n, jobs) == jobs
  }

  lemma {:induction false} LooksKeep(s: Db, w: World, n: nat)
    requires Lawful(w)
    ensures Kept(s.jobs, Looks(s, w, n).jobs)
  {
    if n > 0 {
      LooksKeep(s, w, n - 1);
      var b := Looks(s, w, n - 1);
      assert Kept(b.jobs, w.others(b.step, b.jobs));
    }
  }

  lemma SteadyCount(s: Db, w: World)
    requires Steady(w)
    ensures CountActive(s.jobs) <= CountActive(Look(s, w).jobs)
  {
    assert KeepsActive(s.jobs, w.others(s.step, s.jobs));
    CountGrows(s.jobs, Look(s, w).jobs, (r: Row) => r.Active());
  }

  lemma {:induction false} SteadyCounts(s: Db, w: World, n: nat)
    requires Steady(w)
    ensures CountActive(s.jobs) <= CountActive(Looks(s, w, n).jobs)
  {
    if n > 0 {
      SteadyCounts(s, w, n - 1);
      SteadyCount(Looks(s, w, n - 1), w);
    }
  }

  lemma {:induction false} QuietLooks(s: Db, w: World, n: nat)
    requires Quiet(w)
    ensures Looks(s, w, n).jobs == s.jobs
  {
    if n > 0 {
      QuietLooks(s, w, n - 1);
    }
  }
}
