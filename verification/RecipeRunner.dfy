/** One execution of `run_job` / `run_recipe`, statement by statement, against a UI
    worker and a database that may fail at any step. */
module RecipeRunner {
  import opened BotTypes
  import opened CaseLock
  import opened JobProtocol
  import opened AuditTrail

  /** What happens at one step: its row is stored with this ok flag; an exception is
      raised before the row is stored; or the row is stored ok and the extractor and
      decision hook raises afterwards. */
  datatype Effect = Stored(ok: bool) | Cut | StoredThenCut

  /** The world a run meets, step number by step number. */
  type World = nat -> Effect

  /** A recipe's action list; an entry that is not a dict is skipped. */
  datatype Action = NotADict | Act(kind: string)

  datatype RecipeEntry = NotARecipe | Recipe(id: string, actions: seq<Action>)

  /** The first dict entry with the wanted id; `None` stands for the RunnerError. */
  function FindRecipe(pack: Option<seq<RecipeEntry>>, id: string): (r: Option<seq<Action>>)
    ensures r.Some? <==> pack.Some? && exists i :: 0 <= i < |pack.value| && pack.value[i].Recipe? && pack.value[i].id == id
    ensures r.Some? ==> exists i :: 0 <= i < |pack.value| && pack.value[i] == Recipe(id, r.value) &&
                                    forall k :: 0 <= k < i ==> !(pack.value[k].Recipe? && pack.value[k].id == id)
    decreases if pack.Some? then |pack.value| else 0
  {
    if pack.None? || |pack.value| == 0 then None
    else if pack.value[0].Recipe? && pack.value[0].id == id then Some(pack.value[0].actions)
    else
      var rest := FindRecipe(Some(pack.value[1..]), id);
      assert rest.Some? ==> exists i :: 0 <= i < |pack.value[1..]| && pack.value[1..][i].Recipe? && pack.value[1..][i].id == id;
      assert forall i :: 0 <= i < |pack.value[1..]| ==> pack.value[i + 1] == pack.value[1..][i];
      rest
  }

  function Dicts(actions: seq<Action>): nat {
    if |actions| == 0 then 0
    else Dicts(actions[..|actions| - 1]) + (if actions[|actions| - 1].Act? then 1 else 0)
  }

  // ---------- what one entered run leaves behind ----------

  /** Step `k` lets the run go on. The meta row has no UI answer that could be bad. */
  predicate GoesOn(world: World, k: nat) {
    world(k).Stored? && (world(k).ok || k == 0)
  }

  function StepRows(world: World, k: nat): seq<StepRow> {
    match world(k)
    case Cut => []
    case StoredThenCut => [StepRow(k, true)]
    case Stored(ok) => [StepRow(k, ok || k == 0)]
  }

  /** The rows of steps `k`, `k + 1`, …, up to `last`, as far as the run gets. */
  function RowsFrom(world: World, k: nat, last: nat): seq<StepRow>
    decreases last - k
  {
    if k >= last then []
    else StepRows(world, k) + (if GoesOn(world, k) then RowsFrom(world, k + 1, last) else [])
  }

  ghost predicate GoOn(world: World, from: nat, to: nat) {
    forall k: nat | from <= k < to :: GoesOn(world, k)
  }

  ghost predicate Succeeds(world: World, last: nat) {
    GoOn(world, 0, last)
  }

  lemma {:induction false} RowsFromShape(world: World, k: nat, last: nat)
    ensures var rows := RowsFrom(world, k, last);
            && (forall i | 0 <= i < |rows| :: rows[i].no == k + i && (i < |rows| - 1 ==> rows[i].ok))
            && (k == 0 && |rows| > 0 ==> rows[0].ok)
            && (|rows| == 0 <==> k >= last || world(k).Cut?)
    decreases last - k
  {
    if k < last {
      RowsFromShape(world, k + 1, last);
      assert RowsFrom(world, k, last) == StepRows(world, k) + (if GoesOn(world, k) then RowsFrom(world, k + 1, last) else []);
    }
  }

  lemma {:induction false} GoodRowsFrom(world: World, k: nat, last: nat)
    requires k <= last && GoOn(world, k, last)
    ensures var rows := RowsFrom(world, k, last);
            |rows| == last - k && forall i | 0 <= i < |rows| :: rows[i] == StepRow(k + i, true)
    decreases last - k
  {
    if k < last {
      assert GoesOn(world, k);
      GoodRowsFrom(world, k + 1, last);
      assert RowsFrom(world, k, last) == [StepRow(k, true)] + RowsFrom(world, k + 1, last);
    }
  }

  /** An entered run adds nothing (the meta row could not be stored) or one segment; if
      it succeeds the segment has one row per step and no error. */
  lemma {:induction false} RunAddsOneSegment(world: World, last: nat)
    requires last >= 2
    ensures var rows := RowsFrom(world, 0, last);
            && (rows == [] <==> world(0).Cut?)
            && (rows != [] ==> IsSegment(rows))
            && (Succeeds(world, last) ==> |rows| == last && forall i | 0 <= i < last :: rows[i] == StepRow(i, true))
  {
    RowsFromShape(world, 0, last);
    if Succeeds(world, last) {
      GoodRowsFrom(world, 0, last);
    }
    hide RowsFrom;
  }

  // ---------- the method ----------

  datatype Payload = MetaPayload(recipe: string, degraded: bool) | NavPayload(ok: bool) | ActPayload(kind: string, ok: bool)

  datatype Snapshot = Snapshot(hash: string, payload: Payload)

  datatype AuditRow = AuditRow(step: StepRow, action: string, snapshot: nat, proof: string)

  function Steps(rows: seq<AuditRow>): (r: seq<StepRow>)
    ensures |r| == |rows| && forall i | 0 <= i < |r| :: r[i] == rows[i].step
  {
    seq(|rows|, i requires 0 <= i < |rows| => rows[i].step)
  }

  /** The columns of a job that no run changes. */
  datatype Ident = Ident(id: JobId, caseId: CaseId, risk: RiskLevel, recipeId: string)

  class JobRow {
    const who: Ident
    var status: JobStatus
    var attempt: nat
    var blockedBy: Option<string>
    var errorCode: Option<string>
    var snapshots: seq<Snapshot>
    var rows: seq<AuditRow>

    /** Each row's proof reference is the hash of the snapshot it points to. */
    ghost predicate Proven(hash: Payload -> string)
      reads this
    {
      && (forall k | 0 <= k < |snapshots| :: snapshots[k].hash == hash(snapshots[k].payload))
      && forall i | 0 <= i < |rows| :: rows[i].snapshot < |snapshots| && rows[i].proof == snapshots[rows[i].snapshot].hash
    }

    method AppendStep(no: nat, action: string, payload: Payload, ok: bool, hash: Payload -> string)
      requires Proven(hash)
      modifies this`snapshots, this`rows
      ensures Proven(hash)
      ensures Steps(rows) == Steps(old(rows)) + [StepRow(no, ok)]
      ensures rows == old(rows) + [AuditRow(StepRow(no, ok), action, |old(snapshots)|, hash(payload))]
      ensures snapshots == old(snapshots) + [Snapshot(hash(payload), payload)]
    {
      snapshots := snapshots + [Snapshot(hash(payload), payload)];
      rows := rows + [AuditRow(StepRow(no, ok), action, |snapshots| - 1, snapshots[|snapshots| - 1].hash)];
    }
  }

  datatype Outcome = Finished | BlockedBy(reason: string) | Raised(code: string)

  const RUNNER_ERROR := "RUNNER_ERROR"
  const UNEXPECTED := "UNEXPECTED"

  /** The statements outside the step loop that may raise: loading the bundles, the acquire,
      storing BLOCKED, starting the UI worker, storing RUNNING, storing DONE, the release,
      and storing FAILED. */
  datatype Point = Loading | Acquiring | Refusing | UiStarting | Starting | Ending | Releasing | Reporting

  /** What the run finds before its steps: bundles and recipes (`None` for missing ones),
      the flag, and the statements that will raise. */
  datatype Setting = Setting(pack: Option<seq<RecipeEntry>>, degraded: bool, fails: set<Point>)

  predicate Found(who: Ident, env: Setting) {
    Loading !in env.fails && FindRecipe(env.pack, who.recipeId).Some?
  }

  /** The degraded gate or the case lock turns a write job away. */
  predicate TurnedAway(who: Ident, env: Setting, owners: Owners) {
    Found(who, env) && who.risk.IsWrite()
    && (env.degraded || (Acquiring !in env.fails && !CanAcquire(owners, who.caseId)))
  }

  /** The run gets past gate and lock; a read-only run needs no lock. */
  predicate Enters(who: Ident, env: Setting, owners: Owners) {
    Found(who, env) && !TurnedAway(who, env, owners) && (who.risk.IsWrite() ==> Acquiring !in env.fails)
  }

  /** The run stores RUNNING. */
  predicate Starts(who: Ident, env: Setting, owners: Owners) {
    Enters(who, env, owners) && UiStarting !in env.fails && Starting !in env.fails
  }

  function LastStep(who: Ident, env: Setting): nat
    requires Found(who, env)
  {
    2 + Dicts(FindRecipe(env.pack, who.recipeId).value)
  }

  ghost predicate Ends(who: Ident, env: Setting, owners: Owners, world: World) {
    Starts(who, env, owners) && Succeeds(world, LastStep(who, env)) && Ending !in env.fails
  }

  /** The error code with which steps `k`, `k + 1`, … end the run: a stored error answer
      raises RunnerError, anything else that goes wrong is unexpected. */
  function StepCode(world: World, k: nat, last: nat): Option<string>
    decreases last - k
  {
    if k >= last then None
    else if GoesOn(world, k) then StepCode(world, k + 1, last)
    else Some(if world(k).Stored? then RUNNER_ERROR else UNEXPECTED)
  }

  lemma {:induction false} NoCodeGoesOn(world: World, k: nat, last: nat)
    ensures StepCode(world, k, last).None? <==> GoOn(world, k, last)
    decreases last - k
  {
    if k < last {
      NoCodeGoesOn(world, k + 1, last);
    }
  }

  /** The error code a task leaves behind when an exception reaches it. */
  function CodeLeft(who: Ident, env: Setting, owners: Owners, world: World): string {
    if Loading !in env.fails && !Found(who, env) then RUNNER_ERROR
    else if Starts(who, env, owners) && StepCode(world, 0, LastStep(who, env)).Some?
    then StepCode(world, 0, LastStep(who, env)).value
    else UNEXPECTED
  }

  /** The run stores BLOCKED. */
  predicate Refused(who: Ident, env: Setting, owners: Owners) {
    TurnedAway(who, env, owners) && Refusing !in env.fails
  }

  /** The status a task leaves behind, given the one it found. */
  ghost function StatusLeft(was: JobStatus, who: Ident, env: Setting, owners: Owners, world: World): JobStatus {
    if Refused(who, env, owners) then Blocked
    else if Ends(who, env, owners, world) then Done
    else if Reporting !in env.fails then Failed
    else if Starts(who, env, owners) then Running
    else was
  }

  function OpOf(who: Ident, env: Setting, owners: Owners, world: World): Op {
    if Starts(who, env, owners) then Started(world, Dicts(FindRecipe(env.pack, who.recipeId).value)) else Turned
  }

  /** One step: the UI call, its snapshot and row, and the hook. An error answer raises
      RunnerError after its row, anything else that goes wrong is unexpected. */
  method DoStep(job: JobRow, no: nat, action: string, good: Payload, bad: Payload, world: World,
                hash: Payload -> string)
    returns (error: Option<string>)
    requires job.Proven(hash)
    modifies job`snapshots, job`rows
    ensures job.Proven(hash)
    ensures Steps(job.rows) == Steps(old(job.rows)) + StepRows(world, no)
    ensures error == if GoesOn(world, no) then None
                     else if world(no).Stored? then Some(RUNNER_ERROR) else Some(UNEXPECTED)
  {
    if world(no).Cut? { return Some(UNEXPECTED); }
    var ok := world(no).StoredThenCut? || world(no).ok || no == 0;
    job.AppendStep(no, action, if ok then good else bad, ok, hash);
    if world(no).StoredThenCut? { return Some(UNEXPECTED); }
    return if ok then None else Some(RUNNER_ERROR);
  }

  /** One action, and what is left of the run after it. */
  method DoAction(job: JobRow, kind: string, no: nat, ghost last: nat, world: World, hash: Payload -> string)
    returns (error: Option<string>)
    requires job.Proven(hash) && no < last
    modifies job`snapshots, job`rows
    ensures job.Proven(hash)
    ensures Steps(job.rows) + (if error.None? then RowsFrom(world, no + 1, last) else [])
         == Steps(old(job.rows)) + RowsFrom(world, no, last)
    ensures StepCode(world, no, last) == if error.None? then StepCode(world, no + 1, last) else error
  {
    RowsStep(world, Steps(job.rows), no, last);
    CodeStep(world, no, last);
    hide Steps, StepRows, RowsFrom, GoesOn, StepCode;
    error := DoStep(job, no, kind, ActPayload(kind, true), ActPayload(kind, false), world, hash);
    assert Steps(job.rows) + [] == Steps(job.rows);
  }

  method DoActions(job: JobRow, actions: seq<Action>, world: World, hash: Payload -> string)
    returns (error: Option<string>)
    requires job.Proven(hash)
    modifies job`snapshots, job`rows
    ensures job.Proven(hash)
    ensures Steps(job.rows) == Steps(old(job.rows)) + RowsFrom(world, 2, 2 + Dicts(actions))
    ensures error == StepCode(world, 2, 2 + Dicts(actions))
  {
    ghost var last, start := 2 + Dicts(actions), Steps(job.rows);
    var stepNo, i := 2, 0;
    assert actions[..0] == [] && Dicts(actions[..0]) == 0;
    NoRowsLeft(world, last);
    hide Steps, StepRows, RowsFrom, Dicts, GoesOn, StepCode;
    while i < |actions|
      invariant 0 <= i <= |actions| && stepNo == 2 + Dicts(actions[..i]) <= last
      invariant job.Proven(hash)
      invariant Steps(job.rows) + RowsFrom(world, stepNo, last) == start + RowsFrom(world, 2, last)
      invariant StepCode(world, 2, last) == StepCode(world, stepNo, last)
    {
      DictsGrow(actions, i);
      if actions[i].Act? {
        error := DoAction(job, actions[i].kind, stepNo, last, world, hash);
        if error.Some? { return; }
        stepNo := stepNo + 1;
      }
      i := i + 1;
    }
    assert actions[..i] == actions && Steps(job.rows) + [] == Steps(job.rows);
    return None;
  }

  lemma {:induction false} CodeStep(world: World, k: nat, last: nat)
    requires k < last
    ensures StepCode(world, k, last) == if GoesOn(world, k) then StepCode(world, k + 1, last)
                                        else Some(if world(k).Stored? then RUNNER_ERROR else UNEXPECTED)
  {
  }

  lemma {:induction false} NoRowsLeft(world: World, last: nat)
    ensures RowsFrom(world, last, last) == [] && StepCode(world, last, last) == None
  {
  }

  lemma {:induction false} RowsStep(world: World, done: seq<StepRow>, k: nat, last: nat)
    requires k < last
    ensures GoesOn(world, k) ==> done + RowsFrom(world, k, last) == done + StepRows(world, k) + RowsFrom(world, k + 1, last)
    ensures !GoesOn(world, k) ==> done + RowsFrom(world, k, last) == done + StepRows(world, k)
  {
    var own := StepRows(world, k);
    if GoesOn(world, k) {
      Assoc(done, own, RowsFrom(world, k + 1, last));
    } else {
      Assoc(done, own, []);
    }
  }

  lemma Assoc<T>(a: seq<T>, b: seq<T>, c: seq<T>)
    ensures a + (b + c) == a + b + c
    ensures a + [] == a
  {
  }

  /** All steps of a started run: the recipe's meta row, the navigation, the actions. */
  method DoSteps(job: JobRow, degraded: bool, actions: seq<Action>, world: World, hash: Payload -> string)
    returns (error: Option<string>)
    requires job.Proven(hash)
    modifies job`snapshots, job`rows
    ensures job.Proven(hash)
    ensures Steps(job.rows) == Steps(old(job.rows)) + RowsFrom(world, 0, 2 + Dicts(actions))
    ensures error == StepCode(world, 0, 2 + Dicts(actions))
  {
    FirstTwo(Steps(job.rows), world, 2 + Dicts(actions));
    hide Steps, StepRows, RowsFrom, Dicts, GoesOn, StepCode;
    var meta := MetaPayload(job.who.recipeId, degraded);
    error := DoStep(job, 0, "recipe_meta", meta, meta, world, hash);
    if error.Some? { return; }
    error := DoStep(job, 1, "navigate", NavPayload(true), NavPayload(false), world, hash);
    if error.Some? { return; }
    error := DoActions(job, actions, world, hash);
  }

  /** The body of `try`: everything from storing RUNNING to storing DONE. */
  method Attempt(job: JobRow, env: Setting, actions: seq<Action>, world: World, hash: Payload -> string)
    returns (error: Option<string>)
    requires job.Proven(hash)
    modifies job`status, job`attempt, job`snapshots, job`rows
    ensures job.Proven(hash)
    ensures if Starting in env.fails then
              error == Some(UNEXPECTED) && job.attempt == old(job.attempt) && job.rows == old(job.rows) && job.status == old(job.status)
            else
              && job.attempt == old(job.attempt) + 1
              && Steps(job.rows) == Steps(old(job.rows)) + RowsFrom(world, 0, 2 + Dicts(actions))
              && (var code := StepCode(world, 0, 2 + Dicts(actions));
                  error == if code.None? && Ending in env.fails then Some(UNEXPECTED) else code)
              && job.status == if error.None? then Done else Running
  {
    hide Steps, RowsFrom, Dicts, StepCode;
    if Starting in env.fails { return Some(UNEXPECTED); }
    job.status := Running;
    job.attempt := job.attempt + 1;
    error := DoSteps(job, env.degraded, actions, world, hash);
    if error.Some? { return; }
    if Ending in env.fails { return Some(UNEXPECTED); }
    job.status := Done;
  }

  /** The meta step, the navigate step and the rest. */
  lemma {:induction false} FirstTwo(start: seq<StepRow>, world: World, last: nat)
    requires last >= 2
    ensures var meta, nav := StepRows(world, 0), StepRows(world, 1);
            start + RowsFrom(world, 0, last)
            == if !GoesOn(world, 0) then start + meta
               else if !GoesOn(world, 1) then start + meta + nav
               else start + meta + nav + RowsFrom(world, 2, last)
    ensures StepCode(world, 0, last)
            == if !GoesOn(world, 0) then Some(if world(0).Stored? then RUNNER_ERROR else UNEXPECTED)
               else if !GoesOn(world, 1) then Some(if world(1).Stored? then RUNNER_ERROR else UNEXPECTED)
               else StepCode(world, 2, last)
  {
    hide StepRows, RowsFrom, GoesOn, StepCode;
    RowsStep(world, start, 0, last);
    RowsStep(world, start + StepRows(world, 0), 1, last);
    CodeStep(world, 0, last);
    CodeStep(world, 1, last);
  }

  lemma {:induction false} DictsGrow(actions: seq<Action>, i: nat)
    requires i < |actions|
    ensures Dicts(actions[..i + 1]) == Dicts(actions[..i]) + (if actions[i].Act? then 1 else 0) <= Dicts(actions)
    decreases |actions|
  {
    assert actions[..i + 1][..i] == actions[..i];
    if i + 1 == |actions| {
      assert actions[..i + 1] == actions;
    } else {
      var front := actions[..|actions| - 1];
      DictsGrow(front, i);
      assert front[..i + 1] == actions[..i + 1] && front[..i] == actions[..i];
    }
  }

  method RunRecipe(job: JobRow, locks: CaseLockTable, env: Setting, world: World, hash: Payload -> string)
    returns (out: Outcome)
    requires locks.Valid() && job.Proven(hash)
    modifies job, locks
    ensures locks.Valid() && job.Proven(hash)
    ensures Trail(job.attempt, Steps(job.rows))
         == After(old(Trail(job.attempt, Steps(job.rows))), OpOf(job.who, env, old(locks.Meaning()), world))
    ensures out.Finished? <==> Ends(job.who, env, old(locks.Meaning()), world)
    ensures out.BlockedBy? <==> Refused(job.who, env, old(locks.Meaning()))
    ensures out.BlockedBy? ==> out.reason == (if env.degraded then "DEGRADED_MODE" else "CASE_LOCKED") && job.blockedBy == Some(out.reason)
    ensures out.Raised? ==> out.code == CodeLeft(job.who, env, old(locks.Meaning()), world)
    ensures job.status == if out.BlockedBy? then Blocked else if out.Finished? then Done
                          else if Starts(job.who, env, old(locks.Meaning())) then Running else old(job.status)
    ensures locks.Meaning() == LocksLeft(old(locks.Meaning()), job.who, env)
  {
    hide FindRecipe, Steps, RowsFrom, StepCode, Succeeds, Dicts;
    if Loading in env.fails {
      return Raised(UNEXPECTED);
    }
    var recipe := FindRecipe(env.pack, job.who.recipeId);
    if recipe.None? {
      return Raised(RUNNER_ERROR);
    }
    if env.degraded && job.who.risk.IsWrite() {
      out := Refuse(job, "DEGRADED_MODE", env);
      return;
    }
    if job.who.risk.IsWrite() {
      if Acquiring in env.fails {
        return Raised(UNEXPECTED);
      }
      var ok := locks.AcquireCaseLock(job.who.caseId, job.who.id, "write_job:" + job.who.recipeId);
      if !ok {
        out := Refuse(job, "CASE_LOCKED", env);
        return;
      }
    }
    if UiStarting in env.fails {
      return Raised(UNEXPECTED);
    }
    SuccessIsNoCode(world, 2 + Dicts(recipe.value));
    var error := Attempt(job, env, recipe.value, world, hash);
    if Releasing !in env.fails {
      locks.ReleaseCaseLock(job.who.caseId, job.who.id);
    }
    out := if error.None? then Finished else Raised(error.value);
  }

  lemma {:induction false} SuccessIsNoCode(world: World, last: nat)
    ensures Succeeds(world, last) <==> StepCode(world, 0, last).None?
  {
    NoCodeGoesOn(world, 0, last);
  }

  /** Storing BLOCKED with its reason. */
  method Refuse(job: JobRow, reason: string, env: Setting) returns (out: Outcome)
    modifies job`status, job`blockedBy
    ensures if Refusing in env.fails then out == Raised(UNEXPECTED) && job.status == old(job.status)
            else out == BlockedBy(reason) && job.status == Blocked && job.blockedBy == Some(reason)
  {
    if Refusing in env.fails {
      return Raised(UNEXPECTED);
    }
    job.status, job.blockedBy := Blocked, Some(reason);
    out := BlockedBy(reason);
  }

  /** Who owns the locks after a run: as before it, unless the acquire succeeded and the
      UI start or the release then failed. A read-only run releases without acquiring. */
  function LocksLeft(owners: Owners, who: Ident, env: Setting): Owners {
    var c, j := who.caseId, who.id;
    if !Enters(who, env, owners) then owners
    else
      var held := if who.risk.IsWrite() then Acquired(owners, c, j) else owners;
      if UiStarting !in env.fails && Releasing !in env.fails then Released(held, c, j) else held
  }

  /** A run leaves the locks exactly as it found them unless a write run acquired and
      then could not start the UI or could not release. (A read-only job's id never owns
      a lock.) */
  lemma LocksLeftAlone(owners: Owners, who: Ident, env: Setting)
    requires !who.risk.IsWrite() ==> who.caseId !in owners || owners[who.caseId] != who.id
    ensures LocksLeft(owners, who, env) == owners <==>
              !(Enters(who, env, owners) && who.risk.IsWrite() && (UiStarting in env.fails || Releasing in env.fails))
  {
    ReleaseUndoesAcquire(owners, who.caseId, who.id);
    hide Found;
  }

  /** The Celery task: every exception ends as a FAILED row with an error code, unless
      storing FAILED fails as well and the exception leaves the Celery task. */
  method RunJob(job: JobRow, locks: CaseLockTable, env: Setting, world: World, hash: Payload -> string) returns (escaped: bool)
    requires locks.Valid() && job.Proven(hash)
    modifies job, locks
    ensures locks.Valid() && job.Proven(hash) && locks.Meaning() == LocksLeft(old(locks.Meaning()), job.who, env)
    ensures Trail(job.attempt, Steps(job.rows))
         == After(old(Trail(job.attempt, Steps(job.rows))), OpOf(job.who, env, old(locks.Meaning()), world))
    ensures job.status == StatusLeft(old(job.status), job.who, env, old(locks.Meaning()), world)
    ensures Refused(job.who, env, old(locks.Meaning())) ==>
              job.blockedBy == Some(if env.degraded then "DEGRADED_MODE" else "CASE_LOCKED")
    ensures var raised := !Refused(job.who, env, old(locks.Meaning())) && !Ends(job.who, env, old(locks.Meaning()), world);
            && escaped == (raised && Reporting in env.fails)
            && (raised && !escaped ==> job.errorCode == Some(CodeLeft(job.who, env, old(locks.Meaning()), world)))
  {
    hide Found, Steps, RowsFrom, StepCode, Succeeds, LocksLeft, CodeLeft, OpOf, After;
    escaped := false;
    var out := RunRecipe(job, locks, env, world, hash);
    if out.Raised? {
      if Reporting in env.fails {
        return true;
      }
      job.status, job.errorCode := Failed, Some(out.code);
    }
  }

  // ---------- many runs, one after the other ----------

  datatype Trail = Trail(attempt: nat, steps: seq<StepRow>)

  /** A run that stored RUNNING, one that did not get there, or a `retry` call. */
  datatype Op = Started(world: World, actions: nat) | Turned | Retried

  function After(t: Trail, op: Op): Trail {
    match op
    case Started(world, n) => Trail(t.attempt + 1, t.steps + RowsFrom(world, 0, 2 + n))
    case Turned => t
    case Retried => t.(attempt := t.attempt + 1)
  }

  function AfterAll(t: Trail, ops: seq<Op>): Trail {
    if |ops| == 0 then t else After(AfterAll(t, ops[..|ops| - 1]), ops[|ops| - 1])
  }

  function MetaRows(steps: seq<StepRow>): nat {
    if |steps| == 0 then 0 else MetaRows(steps[..|steps| - 1]) + (if steps[|steps| - 1].no == 0 then 1 else 0)
  }

  function CountOps(ops: seq<Op>, retried: bool): nat {
    if |ops| == 0 then 0
    else
      var op := ops[|ops| - 1];
      CountOps(ops[..|ops| - 1], retried)
      + (if retried then (if op.Retried? then 1 else 0)
         else if op.Started? && op.world(0).Cut? then 1 else 0)
  }

  lemma {:induction false} MetaRowsConcat(a: seq<StepRow>, b: seq<StepRow>)
    ensures MetaRows(a + b) == MetaRows(a) + MetaRows(b)
    decreases |b|
  {
    if |b| == 0 {
      assert a + b == a;
    } else {
      assert (a + b)[..|a + b| - 1] == a + b[..|b| - 1];
      MetaRowsConcat(a, b[..|b| - 1]);
    }
  }

  lemma {:induction false} SegmentHasOneMetaRow(seg: seq<StepRow>)
    requires IsSegment(seg)
    ensures MetaRows(seg) == 1
    decreases |seg|
  {
    if |seg| > 1 {
      SegmentHasOneMetaRow(seg[..|seg| - 1]);
    } else {
      assert seg[..0] == [];
    }
  }

  ghost predicate LaidEndToEnd(steps: seq<StepRow>) {
    exists segs :: steps == Flatten(segs) && forall seg | seg in segs :: IsSegment(seg)
  }

  lemma LayNext(steps: seq<StepRow>, seg: seq<StepRow>)
    requires LaidEndToEnd(steps) && IsSegment(seg)
    ensures LaidEndToEnd(steps + seg)
  {
    var segs :| steps == Flatten(segs) && forall seg | seg in segs :: IsSegment(seg);
    assert (segs + [seg])[..|segs|] == segs;
    assert steps + seg == Flatten(segs + [seg]);
  }

  lemma EnteredStep(t: Trail, world: World, n: nat)
    requires LaidEndToEnd(t.steps)
    ensures var u := After(t, Started(world, n));
            && LaidEndToEnd(u.steps)
            && MetaRows(u.steps) == MetaRows(t.steps) + (if world(0).Cut? then 0 else 1)
  {
    var rows := RowsFrom(world, 0, 2 + n);
    RunAddsOneSegment(world, 2 + n);
    MetaRowsConcat(t.steps, rows);
    if rows == [] {
      assert t.steps + rows == t.steps;
    } else {
      SegmentHasOneMetaRow(rows);
      LayNext(t.steps, rows);
    }
  }

  /** For a job whose runs follow one another, starting from a fresh row: the rows are
      executions laid end to end, and `attempt` is the number of step-0 rows plus the
      retries plus the runs that could not even store their step-0 row. */
  lemma {:induction false} AttemptCountsMetaRows(ops: seq<Op>)
    ensures var t := AfterAll(Trail(0, []), ops);
            && LaidEndToEnd(t.steps)
            && t.attempt == MetaRows(t.steps) + CountOps(ops, true) + CountOps(ops, false)
    decreases |ops|
  {
    if |ops| == 0 {
      assert Flatten([]) == [];
    } else {
      var front, op := ops[..|ops| - 1], ops[|ops| - 1];
      AttemptCountsMetaRows(front);
      if op.Started? {
        EnteredStep(AfterAll(Trail(0, []), front), op.world, op.actions);
      }
    }
  }
}
