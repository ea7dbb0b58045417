/** The version-24 execution loop: attempts, FAILED and QUARANTINED, and why calling it
    again and again comes to an end. */
module Quarantine {
  import opened BotTypes

  /** What one call meets: whether the recipe exists, its number of steps, and how many of
      them succeed before one raises (all of them if at least that many). */
  datatype World = World(found: bool, steps: nat, good: nat)

  predicate Succeeds(w: World) {
    w.found && w.good >= w.steps
  }

  datatype Row = Row(status: JobStatus, attempt: int, maxAttempts: int)

  predicate Final(s: JobStatus) {
    s.Done? || s.Quarantined?
  }

  function AfterCall(r: Row, w: World): Row {
    if Final(r.status) then r
    else if Succeeds(w) then r.(status := Done)
    else r.(attempt := r.attempt + 1, status := if r.attempt + 1 >= r.maxAttempts then Quarantined else Failed)
  }

  /** `n` step numbers 1, 2, …, n were appended to `before`. */
  predicate Numbered(before: seq<nat>, after: seq<nat>, n: nat) {
    && |after| == |before| + n && after[..|before|] == before
    && forall k | |before| <= k < |after| :: after[k] == k - |before| + 1
  }

  /** The steps a call completes: each is one transaction, so a raising step leaves no row. */
  function StepsDone(w: World): nat {
    if !w.found then 0 else if w.good >= w.steps then w.steps else w.good
  }

  class Job {
    var row: Row
    var stepNos: seq<nat>
    var lastError: Option<string>

    /** `_run_step`, atomic: either the row is stored or the step raises and nothing is. */
    method RunStep(stepNo: nat, w: World) returns (raised: bool)
      modifies this`stepNos
      ensures raised == (stepNo > w.good)
      ensures stepNos == if raised then old(stepNos) else old(stepNos) + [stepNo]
    {
      raised := stepNo > w.good;
      if !raised {
        stepNos := stepNos + [stepNo];
      }
    }

    /** `run_job`; `raised` tells that the exception was re-raised to the caller. */
    method RunJob(w: World) returns (raised: bool)
      modifies this
      ensures row == AfterCall(old(row), w)
      ensures raised == (!Final(old(row.status)) && !Succeeds(w))
      ensures raised ==> lastError.Some?
      ensures Numbered(old(stepNos), stepNos, if Final(old(row.status)) then 0 else StepsDone(w))
    {
      raised := false;
      if Final(row.status) {
        return;
      }
      row := row.(status := Running);
      ghost var n0 := stepNos;
      if !w.found {
        raised := true;
      } else {
        var stepNo := 0;
        while stepNo < w.steps && !raised
          invariant 0 <= stepNo <= w.steps && row == old(row).(status := Running)
          invariant raised <==> stepNo > w.good
          invariant raised ==> stepNo == w.good + 1 && Numbered(n0, stepNos, w.good)
          invariant !raised ==> Numbered(n0, stepNos, stepNo)
          decreases w.steps - stepNo
        {
          stepNo := stepNo + 1;
          raised := RunStep(stepNo, w);
        }
      }
      if !raised {
        row := row.(status := Done);
      } else {
        lastError := Some(if w.found then "StepError" else "RuntimeError");
        row := row.(attempt := row.attempt + 1);
        row := row.(status := if row.attempt >= row.maxAttempts then Quarantined else Failed);
      }
    }
  }

  function AfterCalls(r: Row, ws: seq<World>): Row {
    if |ws| == 0 then r else AfterCall(AfterCalls(r, ws[..|ws| - 1]), ws[|ws| - 1])
  }

  /** How many calls are enough. */
  function Budget(r: Row): nat {
    if r.maxAttempts - r.attempt > 1 then r.maxAttempts - r.attempt else 1
  }

  /** After n calls a job is final, or all n calls raised and fewer than the budget were made. */
  lemma {:induction false} CallsProgress(r: Row, ws: seq<World>)
    ensures var t := AfterCalls(r, ws);
            && t.maxAttempts == r.maxAttempts
            && (!Final(t.status) ==> t.attempt == r.attempt + |ws| && |ws| < Budget(r)
                                     && forall i | 0 <= i < |ws| :: !Succeeds(ws[i]))
            && (|ws| > 0 && t.status.Failed? ==> t.attempt < t.maxAttempts)
            && (|ws| > 0 ==> t.status in {Done, Failed, Quarantined})
    decreases |ws|
  {
    if |ws| > 0 {
      CallsProgress(r, ws[..|ws| - 1]);
    }
  }

  /** Repeatedly calling `run_job` ends DONE or QUARANTINED within max(1, max − attempt)
      calls, whatever each call meets, and stays there; and the bound is sharp. */
  lemma {:induction false} TerminatesWithinBudget(r: Row, ws: seq<World>)
    ensures |ws| >= Budget(r) ==> Final(AfterCalls(r, ws).status)
    ensures forall w :: Final(AfterCalls(r, ws).status) ==> AfterCall(AfterCalls(r, ws), w) == AfterCalls(r, ws)
    ensures !Final(r.status) && |ws| < Budget(r) && (forall i | 0 <= i < |ws| :: !Succeeds(ws[i])) ==>
              !Final(AfterCalls(r, ws).status)
  {
    CallsProgress(r, ws);
    if !Final(r.status) && |ws| < Budget(r) && (forall i | 0 <= i < |ws| :: !Succeeds(ws[i])) {
      FailingCallsStay(r, ws);
    }
  }

  lemma {:induction false} FailingCallsStay(r: Row, ws: seq<World>)
    requires !Final(r.status) && |ws| < Budget(r) && forall i | 0 <= i < |ws| :: !Succeeds(ws[i])
    ensures var t := AfterCalls(r, ws); !Final(t.status) && t.attempt == r.attempt + |ws| && t.maxAttempts == r.maxAttempts
    decreases |ws|
  {
    if |ws| > 0 {
      FailingCallsStay(r, ws[..|ws| - 1]);
    }
  }
}
