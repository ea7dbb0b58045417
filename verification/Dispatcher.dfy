/** `plan_and_enqueue_for_all_cases`: the guard, the planning pass, the SLA order and the
    quota loop, as coded. Every query sees the table as other processes have left it. */
module Dispatcher {
  import opened BotTypes
  import opened Collections
  import opened JobTable
  import opened Planner

  // ---------- policies ----------

  /** `maxRunning` has an entry for each risk level the policy caps; 9999 otherwise. */
  datatype Policy = Policy(globalCap: int, perCase: int, perCaseWrite: int, maxRunning: map<RiskLevel, int>)

  const DEFAULT_POLICY := Policy(20, 6, 1, map[HighImpactWrite := 1, ControlledWrite := 3, ReadOnly := 30])

  function CapFor(policy: Policy, risk: RiskLevel): int {
    if risk in policy.maxRunning then policy.maxRunning[risk] else 9999
  }

  predicate ActiveIn(r: Row, risk: RiskLevel) {
    r.Active() && r.risk == risk
  }

  function CountClass(jobs: seq<Row>, risk: RiskLevel): nat {
    Count(jobs, (r: Row) => ActiveIn(r, risk))
  }

  datatype SlaSpec = SlaSpec(maxAgeMinutes: int, boost: int)

  type Stage = nat

  datatype CaseRow = CaseRow(info: CaseInfo, stopped: bool, plan: Plan)

  /** What a tick reads besides the job table. While sorting, the stage of a job's case and
      the clock are read once for each job, given by its id. */
  datatype Tick = Tick(policy: Policy, cases: seq<CaseRow>, sla: map<Stage, SlaSpec>, stageOf: nat -> Stage, nowFor: nat -> int)

  // ---------- order ----------

  /** Old enough for its stage's SLA when it is looked at. */
  predicate Aged(q: nat, r: Row, t: Tick) {
    var stage := t.stageOf(q);
    stage in t.sla && t.sla[stage].maxAgeMinutes > 0 && t.nowFor(q) - r.created >= 60 * t.sla[stage].maxAgeMinutes
  }

  function EffPriority(q: nat, r: Row, t: Tick): int {
    if Aged(q, r, t) then r.priority + t.sla[t.stageOf(q)].boost else r.priority
  }

  /** A sort key: smaller first on the first part, newer (larger created) first on ties. */
  datatype Key = Key(major: int, created: int)

  predicate KeyLeq(a: Key, b: Key) {
    a.major < b.major || (a.major == b.major && a.created >= b.created)
  }

  ghost predicate SortedBy(ids: seq<nat>, key: nat -> Key) {
    forall i, k | 0 <= i < k < |ids| :: KeyLeq(key(ids[i]), key(ids[k]))
  }

  ghost predicate SameIds(a: seq<nat>, b: seq<nat>) {
    multiset(a) == multiset(b)
  }

  method Insert(ids: seq<nat>, x: nat, key: nat -> Key) returns (r: seq<nat>)
    requires SortedBy(ids, key)
    ensures SortedBy(r, key) && multiset(r) == multiset(ids) + multiset{x}
  {
    hide SortedBy;
    var i := |ids|;
    while i > 0 && !KeyLeq(key(ids[i - 1]), key(x))
      invariant 0 <= i <= |ids|
      invariant forall k | i <= k < |ids| :: KeyLeq(key(x), key(ids[k]))
    {
      i := i - 1;
    }
    r := ids[..i] + [x] + ids[i..];
    InsertedIds(ids, x, i);
    Inserted(ids, x, key, i);
  }

  lemma InsertedIds(ids: seq<nat>, x: nat, i: nat)
    requires i <= |ids|
    ensures multiset(ids[..i] + [x] + ids[i..]) == multiset(ids) + multiset{x}
  {
    assert ids == ids[..i] + ids[i..];
    assert multiset(ids[..i] + [x] + ids[i..]) == multiset(ids[..i]) + multiset{x} + multiset(ids[i..]);
  }

  lemma Inserted(ids: seq<nat>, x: nat, key: nat -> Key, i: nat)
    requires SortedBy(ids, key) && i <= |ids|
    requires i > 0 ==> KeyLeq(key(ids[i - 1]), key(x))
    requires forall k | i <= k < |ids| :: KeyLeq(key(x), key(ids[k]))
    ensures SortedBy(ids[..i] + [x] + ids[i..], key)
  {
    var r := ids[..i] + [x] + ids[i..];
    forall k | 0 <= k < i ensures KeyLeq(key(ids[k]), key(x)) {
      assert k < i - 1 ==> KeyLeq(key(ids[k]), key(ids[i - 1]));
    }
    forall a, b | 0 <= a < b < |r| ensures KeyLeq(key(r[a]), key(r[b])) {
      assert r[a] == if a < i then ids[a] else if a == i then x else ids[a - 1];
      assert r[b] == if b < i then ids[b] else if b == i then x else ids[b - 1];
    }
  }

  method Sort(ids: seq<nat>, key: nat -> Key) returns (r: seq<nat>)
    ensures SortedBy(r, key) && SameIds(r, ids)
  {
    r := [];
    var i := 0;
    while i < |ids|
      invariant 0 <= i <= |ids| && SortedBy(r, key) && multiset(r) == multiset(ids[..i])
    {
      r := Insert(r, ids[i], key);
      assert ids[..i + 1] == ids[..i] + [ids[i]];
      i := i + 1;
    }
    assert ids[..i] == ids;
  }

  // ---------- what a tick must do ----------

  /** The two per-case counts, each a query of its own. */
  function Admits(s: Db, c: CaseRow, policy: Policy, w: World): (Db, bool) {
    if c.stopped then (s, false)
    else
      var a := Look(s, w);
      if Count(a.jobs, (r: Row) => r.Active() && r.caseId == c.info.id) >= policy.perCase then (a, false)
      else
        var b := Look(a, w);
        (b, Count(b.jobs, (r: Row) => r.Active() && r.caseId == c.info.id && r.risk.IsWrite()) < policy.perCaseWrite)
  }

  function PlanOne(s: Db, c: CaseRow, policy: Policy, w: World): Db {
    var (b, ok) := Admits(s, c, policy, w);
    if ok then PlanCase(b, c.info, c.plan, w) else b
  }

  function PlanPass(s: Db, t: Tick, w: World, n: nat): Db
    requires n <= |t.cases|
  {
    if n == 0 then s else PlanOne(PlanPass(s, t, w, n - 1), t.cases[n - 1], t.policy, w)
  }

  /** The table when the queue is listed. */
  function Listed(s: Db, t: Tick, w: World): Db {
    Look(PlanPass(Look(s, w), t, w, |t.cases|), w)
  }

  /** The queue the tick looks at: no id twice, only queued rows, at most 500, and no
      queued row left out that has a smaller raw key than one that is in. */
  ghost predicate IsQueue(jobs: seq<Row>, queue: seq<nat>) {
    && (forall i | 0 <= i < |queue| :: queue[i] < |jobs| && jobs[queue[i]].status.Queued?)
    && (forall i, k | 0 <= i < k < |queue| :: queue[i] != queue[k])
    && |queue| <= 500
    && forall q: nat | q < |jobs| && jobs[q].status.Queued? && q !in queue ::
         |queue| == 500 && forall i | 0 <= i < |queue| :: KeyLeq(RawKey(jobs[queue[i]]), RawKey(jobs[q]))
  }

  function RawKey(r: Row): Key {
    Key(r.priority, r.created)
  }

  // ---------- the quota tests ----------

  /** The tables that the tests of the `i`-th considered job see: two queries for each job. */
  function GlobalView(l: Db, w: World, i: nat): seq<Row> {
    Looks(l, w, 2 * i + 1).jobs
  }

  function ClassView(l: Db, w: World, i: nat): seq<Row> {
    Looks(l, w, 2 * i + 2).jobs
  }

  /** Neither this job's global test nor any before it found the cap reached. */
  predicate Open(l: Db, policy: Policy, w: World, i: nat) {
    forall k: nat | k <= i :: CountActive(GlobalView(l, w, k)) < policy.globalCap
  }

  /** The `i`-th considered job is sent. QUEUED rows count as running in both tests. */
  predicate Sends(l: Db, queue: seq<nat>, policy: Policy, w: World, i: nat)
    requires i < |queue| && queue[i] < |l.jobs|
  {
    Open(l, policy, w, i) && CountClass(ClassView(l, w, i), l.jobs[queue[i]].risk) < CapFor(policy, l.jobs[queue[i]].risk)
  }

  ghost predicate OpenBefore(l: Db, policy: Policy, w: World, i: nat) {
    forall k: nat | k < i :: CountActive(GlobalView(l, w, k)) < policy.globalCap
  }

  /** Two queries of others' work further on, per considered job. */
  lemma {:induction false} ViewsOf(l: Db, w: World, i: nat)
    ensures var a := Look(Looks(l, w, 2 * i), w);
            && a == Looks(l, w, 2 * i + 1) && a.jobs == GlobalView(l, w, i)
            && Look(a, w) == Looks(l, w, 2 * i + 2) && Look(a, w).jobs == ClassView(l, w, i)
  {
    hide Look;
    assert Looks(l, w, 2 * i + 1) == Look(Looks(l, w, 2 * i), w);
    assert Looks(l, w, 2 * i + 2) == Look(Looks(l, w, 2 * i + 1), w);
  }

  lemma InTableAt(jobs: seq<Row>, queue: seq<nat>, i: nat)
    requires InTable(jobs, queue) && i < |queue|
    ensures queue[i] < |jobs|
  {
  }

  lemma {:induction false} NoneTested(l: Db, queue: seq<nat>, policy: Policy, w: World)
    requires InTable(l.jobs, queue)
    ensures OpenBefore(l, policy, w, 0) && Looks(l, w, 0) == l && Sent(l, queue, policy, w, 0) == []
  {
  }

  /** What the `i`-th pair of tests decides. */
  lemma {:induction false} SentNext(l: Db, queue: seq<nat>, policy: Policy, w: World, i: nat)
    requires i < |queue| && InTable(l.jobs, queue) && OpenBefore(l, policy, w, i)
    ensures CountActive(GlobalView(l, w, i)) < policy.globalCap ==>
              && OpenBefore(l, policy, w, i + 1)
              && Sent(l, queue, policy, w, i + 1) == Sent(l, queue, policy, w, i)
                 + (if CountClass(ClassView(l, w, i), l.jobs[queue[i]].risk) < CapFor(policy, l.jobs[queue[i]].risk) then [queue[i]] else [])
  {
    hide CountActive, CountClass, GlobalView, ClassView;
    if CountActive(GlobalView(l, w, i)) < policy.globalCap {
      assert Open(l, policy, w, i);
    }
  }

  predicate InTable(jobs: seq<Row>, queue: seq<nat>) {
    forall i | 0 <= i < |queue| :: queue[i] < |jobs|
  }

  /** What is sent of the first `n` considered jobs. */
  function Sent(l: Db, queue: seq<nat>, policy: Policy, w: World, n: nat): seq<nat>
    requires n <= |queue| && InTable(l.jobs, queue)
  {
    if n == 0 then []
    else Sent(l, queue, policy, w, n - 1) + (if Sends(l, queue, policy, w, n - 1) then [queue[n - 1]] else [])
  }

  function KeyOf(jobs: seq<Row>, t: Tick): nat -> Key {
    (q: nat) => if q < |jobs| then Key(EffPriority(q, jobs[q], t), jobs[q].created) else Key(0, 0)
  }

  class Scheduler {
    const db: PlanningDb
    var broker: seq<nat>

    constructor (db: PlanningDb)
      ensures this.db == db && broker == []
    {
      this.db := db;
      broker := [];
    }

    /** `JobRun.objects.filter(QUEUED).order_by("priority", "-created_at")[:500]`. */
    method LoadQueue() returns (queue: seq<nat>)
      ensures IsQueue(db.jobs, queue)
    {
      var jobs := db.jobs;
      var key := (q: nat) => if q < |jobs| then RawKey(jobs[q]) else Key(0, 0);
      var ids: seq<nat>, k := [], 0;
      while k < |jobs|
        invariant 0 <= k <= |jobs|
        invariant forall i | 0 <= i < |ids| :: ids[i] < k && jobs[ids[i]].status.Queued?
        invariant forall i, j | 0 <= i < j < |ids| :: ids[i] != ids[j]
        invariant forall q: nat | q < k && jobs[q].status.Queued? :: q in ids
      {
        if jobs[k].status.Queued? {
          ids := ids + [k];
        }
        k := k + 1;
      }
      var sorted := Sort(ids, key);
      SameIdsFacts(ids, sorted);
      queue := if |sorted| <= 500 then sorted else sorted[..500];
      assert forall i | 0 <= i < |queue| :: queue[i] in ids;
      forall q: nat | q < |jobs| && jobs[q].status.Queued? && q !in queue
        ensures |queue| == 500 && forall i | 0 <= i < |queue| :: KeyLeq(RawKey(jobs[queue[i]]), RawKey(jobs[q]))
      {
        assert q in sorted;
        var p :| 0 <= p < |sorted| && sorted[p] == q;
        assert forall k | 0 <= k < |queue| :: sorted[k] == queue[k] && queue[k] != q;
        assert p >= |queue|;
        forall i | 0 <= i < |queue| ensures KeyLeq(RawKey(jobs[queue[i]]), RawKey(jobs[q])) {
          assert KeyLeq(key(sorted[i]), key(sorted[p]));
        }
      }
    }

    method Admit(c: CaseRow, policy: Policy, w: World) returns (ok: bool)
      modifies db
      ensures (db.S(), ok) == Admits(old(db.S()), c, policy, w)
    {
      if c.stopped {
        return false;
      }
      db.OthersAct(w);
      if Count(db.jobs, (r: Row) => r.Active() && r.caseId == c.info.id) >= policy.perCase {
        return false;
      }
      db.OthersAct(w);
      ok := Count(db.jobs, (r: Row) => r.Active() && r.caseId == c.info.id && r.risk.IsWrite()) < policy.perCaseWrite;
    }

    /** The planning loop over the cases. */
    method PlanAll(t: Tick, w: World)
      modifies db
      ensures db.S() == PlanPass(old(db.S()), t, w, |t.cases|)
    {
      hide Admits, PlanCase;
      var n := 0;
      while n < |t.cases|
        invariant 0 <= n <= |t.cases| && db.S() == PlanPass(old(db.S()), t, w, n)
      {
        var ok := Admit(t.cases[n], t.policy, w);
        if ok {
          db.PlanForCase(t.cases[n].info, t.cases[n].plan, w);
        }
        n := n + 1;
      }
    }

    /** The two tests of one considered job, the `i`-th after the listed table `l`: whether
        the loop goes on, and whether the job is sent. */
    method TestJob(risk: RiskLevel, policy: Policy, w: World, ghost l: Db, ghost queue: seq<nat>, ghost i: nat)
      returns (open: bool, send: bool)
      requires i < |queue| && InTable(l.jobs, queue) && risk == l.jobs[queue[i]].risk
      requires db.S() == Looks(l, w, 2 * i) && OpenBefore(l, policy, w, i)
      modifies db
      ensures open ==> OpenBefore(l, policy, w, i + 1)
      ensures open ==> Sent(l, queue, policy, w, i + 1) == Sent(l, queue, policy, w, i) + (if send then [queue[i]] else [])
      ensures !open ==> !send && Sent(l, queue, policy, w, |queue|) == Sent(l, queue, policy, w, i)
      ensures db.S() == Looks(l, w, if open then 2 * i + 2 else 2 * i + 1)
    {
      ViewsOf(l, w, i);
      SentNext(l, queue, policy, w, i);
      hide CountActive, CountClass, GlobalView, ClassView, Looks, Look, CapFor, Sent, OpenBefore;
      open, send := false, false;
      db.OthersAct(w);
      if CountActive(db.jobs) >= policy.globalCap {
        NothingAfter(l, queue, policy, w, i, |queue|);
        return;
      }
      open := true;
      db.OthersAct(w);
      send := CountClass(db.jobs, risk) < CapFor(policy, risk);
    }

    /** The quota loop: it stops at the global cap and skips a full risk level. The risk
        levels are those of the listed rows. */
    method DispatchAll(listed: seq<Row>, queue: seq<nat>, policy: Policy, w: World) returns (created: nat, ghost looks: nat)
      requires listed == db.jobs && InTable(listed, queue)
      modifies this`broker, db
      ensures broker == old(broker) + Sent(old(db.S()), queue, policy, w, |queue|)
      ensures created == |broker| - |old(broker)|
      ensures looks <= 2 * |queue| && db.S() == Looks(old(db.S()), w, looks)
    {
      ghost var l, before := db.S(), broker;
      NoneTested(l, queue, policy, w);
      hide Sent, OpenBefore, Looks, InTable;
      created, looks := 0, 0;
      var i := 0;
      while i < |queue|
        invariant 0 <= i <= |queue| && db.S() == Looks(l, w, 2 * i)
        invariant OpenBefore(l, policy, w, i)
        invariant broker == before + Sent(l, queue, policy, w, i)
        invariant created == |broker| - |before|
      {
        InTableAt(listed, queue, i);
        var open, send := TestJob(listed[queue[i]].risk, policy, w, l, queue, i);
        if !open {
          looks := 2 * i + 1;
          return;
        }
        if send {
          broker := broker + [queue[i]];
          created := created + 1;
        }
        i := i + 1;
      }
      looks := 2 * i;
    }

    /** One scheduler tick. The listed table and the queue are returned for the specification. */
    method RunTick(t: Tick, w: World) returns (created: nat, queue: seq<nat>, ghost looks: nat)
      modifies this`broker, db
      ensures created == |broker| - |old(broker)|
      ensures TickDoes(old(db.S()), t, w, queue, looks, db.S(), old(broker), broker)
    {
      created, queue, looks := 0, [], 0;
      db.OthersAct(w);
      if CountActive(db.jobs) >= t.policy.globalCap {
        return;
      }
      PlanAll(t, w);
      db.OthersAct(w);
      var listed := db.jobs;
      var raw := LoadQueue();
      queue := Sort(raw, KeyOf(listed, t));
      SameIdsFacts(raw, queue);
      SameQueue(listed, raw, queue);
      created, looks := DispatchAll(listed, queue, t.policy, w);
    }
  }

  /** What one tick does to the table and the broker: nothing at the cap; otherwise it
      plans, lists a whole sorted queue, and sends what the tests let through. */
  ghost predicate TickDoes(s: Db, t: Tick, w: World, queue: seq<nat>, looks: nat, s': Db, broker: seq<nat>, broker': seq<nat>) {
    if CountActive(Look(s, w).jobs) >= t.policy.globalCap then s' == Look(s, w) && broker' == broker
    else
      var l := Listed(s, t, w);
      && IsQueue(l.jobs, queue) && SortedBy(queue, KeyOf(l.jobs, t))
      && looks <= 2 * |queue| && s' == Looks(l, w, looks)
      && broker' == broker + Sent(l, queue, t.policy, w, |queue|)
  }

  /** Once a global test fails nothing more is sent. */
  lemma {:induction false} NothingAfter(l: Db, queue: seq<nat>, policy: Policy, w: World, i: nat, n: nat)
    requires InTable(l.jobs, queue) && i <= n <= |queue|
    requires i < n ==> CountActive(GlobalView(l, w, i)) >= policy.globalCap
    ensures Sent(l, queue, policy, w, n) == Sent(l, queue, policy, w, i)
    decreases n
  {
    if i < n {
      NothingAfter(l, queue, policy, w, i, n - 1);
      assert !Open(l, policy, w, n - 1);
    }
  }

  /** The queue stays a queue when it is put in another order. */
  lemma SameQueue(jobs: seq<Row>, a: seq<nat>, b: seq<nat>)
    requires IsQueue(jobs, a) && SameIds(b, a)
    ensures IsQueue(jobs, b)
  {
    SameIdsFacts(a, b);
    assert forall i | 0 <= i < |b| :: b[i] in a;
    forall q: nat | q < |jobs| && jobs[q].status.Queued? && q !in b
      ensures |b| == 500 && forall i | 0 <= i < |b| :: KeyLeq(RawKey(jobs[b[i]]), RawKey(jobs[q]))
    {
      forall i | 0 <= i < |b| ensures KeyLeq(RawKey(jobs[b[i]]), RawKey(jobs[q])) {
        var k :| 0 <= k < |a| && a[k] == b[i];
      }
    }
  }

  /** Permuting a list without repetitions keeps its members and repeats none. */
  lemma SameIdsFacts(a: seq<nat>, b: seq<nat>)
    requires SameIds(b, a) && forall i, k | 0 <= i < k < |a| :: a[i] != a[k]
    ensures |a| == |b| && (forall x :: x in a <==> x in b)
    ensures forall i, k | 0 <= i < k < |b| :: b[i] != b[k]
  {
    assert |multiset(a)| == |a| && |multiset(b)| == |b|;
    forall x ensures x in a <==> x in b {
      assert x in a <==> x in multiset(a);
      assert x in b <==> x in multiset(b);
    }
    forall i, k | 0 <= i < k < |b| ensures b[i] != b[k] {
      if b[i] == b[k] {
        RepeatsCount(b, i, k);
        NoRepeatCount(a, b[i]);
      }
    }
  }

  lemma RepeatsCount(b: seq<nat>, i: nat, k: nat)
    requires i < k < |b| && b[i] == b[k]
    ensures multiset(b)[b[i]] >= 2
  {
    assert b == b[..k] + [b[k]] + b[k + 1..];
    assert b[i] in b[..k];
    assert multiset(b[..k])[b[i]] >= 1;
  }

  lemma {:induction false} NoRepeatCount(a: seq<nat>, x: nat)
    requires forall i, k | 0 <= i < k < |a| :: a[i] != a[k]
    ensures multiset(a)[x] <= 1
    decreases |a|
  {
    if |a| > 0 {
      var front, last := a[..|a| - 1], a[|a| - 1];
      assert a == front + [last];
      NoRepeatCount(front, x);
      if last == x {
        assert x !in front;
        assert x !in multiset(front);
      }
    }
  }

  // ---------- what is sent ----------

  ghost predicate Distinct(queue: seq<nat>) {
    forall i, k | 0 <= i < k < |queue| :: queue[i] != queue[k]
  }

  lemma {:induction false} SentOnlyQueued(l: Db, queue: seq<nat>, policy: Policy, w: World, n: nat, q: nat)
    requires InTable(l.jobs, queue) && n <= |queue|
    ensures q in Sent(l, queue, policy, w, n) <==> exists i: nat :: i < n && queue[i] == q && Sends(l, queue, policy, w, i)
  {
    hide Sends;
    if n > 0 {
      SentOnlyQueued(l, queue, policy, w, n - 1, q);
      if queue[n - 1] == q && Sends(l, queue, policy, w, n - 1) {
        assert Sent(l, queue, policy, w, n)[|Sent(l, queue, policy, w, n)| - 1] == q;
      }
    }
  }

  /** Exact dispatch: the `i`-th considered job is sent exactly when no global test up to
      its own found QUEUED plus RUNNING at the cap and its own second test found its risk
      level below that level's cap, each in the table of that moment. Nothing else is sent. */
  lemma {:induction false} DispatchExact(l: Db, queue: seq<nat>, policy: Policy, w: World)
    requires IsQueue(l.jobs, queue)
    ensures forall i: nat | i < |queue| ::
              queue[i] in Sent(l, queue, policy, w, |queue|) <==>
              && (forall k: nat | k <= i :: CountActive(GlobalView(l, w, k)) < policy.globalCap)
              && CountClass(ClassView(l, w, i), l.jobs[queue[i]].risk) < CapFor(policy, l.jobs[queue[i]].risk)
    ensures forall q | q in Sent(l, queue, policy, w, |queue|) :: q in queue
  {
    hide CountActive, CountClass;
    forall q: nat ensures q in Sent(l, queue, policy, w, |queue|) <==>
                          exists i: nat :: i < |queue| && queue[i] == q && Sends(l, queue, policy, w, i) {
      SentOnlyQueued(l, queue, policy, w, |queue|, q);
    }
  }

  /** `pos` embeds `sub` in `all` in order. */
  ghost predicate Embeds(pos: seq<nat>, sub: seq<nat>, all: seq<nat>) {
    && |pos| == |sub|
    && (forall i | 0 <= i < |pos| :: pos[i] < |all| && all[pos[i]] == sub[i])
    && forall i, k | 0 <= i < k < |pos| :: pos[i] < pos[k]
  }

  /** The positions of the sent jobs in the considered queue. */
  lemma {:induction false} SentEmbeds(l: Db, queue: seq<nat>, policy: Policy, w: World, n: nat) returns (pos: seq<nat>)
    requires InTable(l.jobs, queue) && n <= |queue|
    ensures Embeds(pos, Sent(l, queue, policy, w, n), queue)
    ensures forall i | 0 <= i < |pos| :: pos[i] < n && Sends(l, queue, policy, w, pos[i])
  {
    hide Sends;
    pos := [];
    if n > 0 {
      pos := SentEmbeds(l, queue, policy, w, n - 1);
      if Sends(l, queue, policy, w, n - 1) {
        pos := pos + [n - 1];
      }
    }
  }

  /** Dispatch order: the ids sent are a subsequence of the considered queue, which is
      sorted by SLA-effective priority, newest first on ties; so they are themselves in
      that order and none is sent twice by one tick. */
  lemma {:induction false} DispatchOrder(l: Db, queue: seq<nat>, t: Tick, w: World)
    requires IsQueue(l.jobs, queue) && SortedBy(queue, KeyOf(l.jobs, t))
    ensures var sent := Sent(l, queue, t.policy, w, |queue|);
            && (exists pos: seq<nat> :: Embeds(pos, sent, queue))
            && SortedBy(sent, KeyOf(l.jobs, t)) && Distinct(sent)
  {
    var pos := SentEmbeds(l, queue, t.policy, w, |queue|);
    var sent := Sent(l, queue, t.policy, w, |queue|);
    var key := KeyOf(l.jobs, t);
    hide KeyLeq, KeyOf;
    assert Embeds(pos, sent, queue);
    forall i, k | 0 <= i < k < |sent| ensures sent[i] != sent[k] && KeyLeq(key(sent[i]), key(sent[k])) {
      assert queue[pos[i]] == sent[i] && queue[pos[k]] == sent[k];
    }
  }

  /** With at most 500 queued rows the tick considers every one of them exactly once. */
  lemma {:induction false} QueueIsWhole(jobs: seq<Row>, queue: seq<nat>)
    requires IsQueue(jobs, queue) && Count(jobs, (r: Row) => r.status.Queued?) <= 500
    ensures forall q: nat :: q in queue <==> q < |jobs| && jobs[q].status.Queued?
  {
    var queued := (r: Row) => r.status.Queued?;
    CountIsCardinality(jobs, queued);
    forall q: nat | q < |jobs| && jobs[q].status.Queued? ensures q in queue {
      if q !in queue {
        var s := SeqSet(queue);
        SubsetSize(s + {q}, Where(jobs, queued));
      }
    }
  }

  /** SLA boosting: an aged job is considered before every job that is not aged and whose
      priority number is larger than the boosted one; the order of two jobs that are not
      aged is the raw one, with newer first on equal priorities. */
  lemma SlaOvertakes(jobs: seq<Row>, queue: seq<nat>, t: Tick, i: nat, k: nat)
    requires i < |queue| && k < |queue| && queue[i] < |jobs| && queue[k] < |jobs| && SortedBy(queue, KeyOf(jobs, t))
    ensures var a, b := jobs[queue[i]], jobs[queue[k]];
            && (Aged(queue[i], a, t) && !Aged(queue[k], b, t) && a.priority + t.sla[t.stageOf(queue[i])].boost < b.priority ==> i < k)
            && (!Aged(queue[i], a, t) && !Aged(queue[k], b, t) && (a.priority < b.priority || (a.priority == b.priority && a.created > b.created)) ==> i < k)
  {
    if k < i {
      assert KeyLeq(KeyOf(jobs, t)(queue[k]), KeyOf(jobs, t)(queue[i]));
    }
  }

  lemma {:induction false} SeqSet(a: seq<nat>) returns (s: set<nat>)
    requires forall i, k | 0 <= i < k < |a| :: a[i] != a[k]
    ensures |s| == |a| && forall x :: x in s <==> x in a
    decreases |a|
  {
    s := {};
    if |a| > 0 {
      var last := |a| - 1;
      s := SeqSet(a[..last]);
      assert a == a[..last] + [a[last]];
      assert a[last] !in a[..last];
      s := s + {a[last]};
    }
  }

  /** Every row that was active in the listed table is still active at each of the tests. */
  ghost predicate NobodyLeaves(l: Db, w: World, tests: nat) {
    forall n: nat | n <= 2 * tests :: KeepsActive(l.jobs, Looks(l, w, n).jobs)
  }

  lemma {:induction false} StillActive(l: Db, queue: seq<nat>, w: World, i: nat, n: nat)
    requires IsQueue(l.jobs, queue) && Lawful(w) && i < |queue| && KeepsActive(l.jobs, Looks(l, w, n).jobs)
    ensures var q, jobs := queue[i], Looks(l, w, n).jobs;
            q < |jobs| && jobs[q].Active() && jobs[q].risk == l.jobs[q].risk
  {
    LooksKeep(l, w, n);
  }

  /** Ids of `ids` that satisfied `p` when listed and do not in this table. */
  function Left(ids: seq<nat>, jobs: seq<Row>, p: Row -> bool): set<nat> {
    set q | q in ids && !(q < |jobs| && p(jobs[q]))
  }

  function LeftActive(ids: seq<nat>, jobs: seq<Row>): set<nat> {
    Left(ids, jobs, (r: Row) => r.Active())
  }

  function LeftLevel(ids: seq<nat>, jobs: seq<Row>, risk: RiskLevel): set<nat> {
    Left(ids, jobs, (r: Row) => ActiveIn(r, risk))
  }

  lemma NothingLeft(ids: seq<nat>, jobs: seq<Row>, p: Row -> bool)
    requires forall i | 0 <= i < |ids| :: ids[i] < |jobs| && p(jobs[ids[i]])
    ensures Left(ids, jobs, p) == {}
  {
  }

  /** Distinct ids are at most those `Count` counts plus those that left. */
  lemma {:induction false} CountPlusLeft(ids: seq<nat>, jobs: seq<Row>, p: Row -> bool)
    requires Distinct(ids)
    ensures |ids| <= Count(jobs, p) + |Left(ids, jobs, p)|
  {
    var s := SeqSet(ids);
    CountIsCardinality(jobs, p);
    SubsetSize(s, Where(jobs, p) + Left(ids, jobs, p));
  }

  lemma {:induction false} SentDistinct(l: Db, queue: seq<nat>, policy: Policy, w: World)
    requires IsQueue(l.jobs, queue)
    ensures Distinct(Sent(l, queue, policy, w, |queue|))
  {
    var pos := SentEmbeds(l, queue, policy, w, |queue|);
    var sent := Sent(l, queue, policy, w, |queue|);
    forall i, k | 0 <= i < k < |sent| ensures sent[i] != sent[k] {
      assert queue[pos[i]] == sent[i] && queue[pos[k]] == sent[k];
    }
  }

  /** Whatever the other processes do: at the global test of each job that is sent, fewer
      jobs than the cap are QUEUED or RUNNING, so one tick sends fewer jobs than the cap plus
      the jobs it sends that were not QUEUED or RUNNING at that test. */
  lemma {:induction false} SentBound(l: Db, queue: seq<nat>, policy: Policy, w: World, i: nat)
    requires IsQueue(l.jobs, queue) && i < |queue| && queue[i] in Sent(l, queue, policy, w, |queue|)
    ensures var sent := Sent(l, queue, policy, w, |queue|);
            |sent| < policy.globalCap + |LeftActive(sent, GlobalView(l, w, i))|
  {
    var at := Position(l, queue, policy, w, queue[i]);
    SentDistinct(l, queue, policy, w);
    CountPlusLeft(Sent(l, queue, policy, w, |queue|), GlobalView(l, w, i), (r: Row) => r.Active());
  }

  /** When no row leaves QUEUED or RUNNING between the listing and the last test, one tick
      sends fewer jobs than the global cap: queued jobs count against the cap that lets
      them through. */
  lemma {:induction false} FewerThanTheCap(l: Db, queue: seq<nat>, policy: Policy, w: World)
    requires IsQueue(l.jobs, queue) && Lawful(w) && NobodyLeaves(l, w, |queue|)
    ensures var sent := Sent(l, queue, policy, w, |queue|); sent != [] ==> |sent| < policy.globalCap
  {
    var sent := Sent(l, queue, policy, w, |queue|);
    if sent != [] {
      var at := Position(l, queue, policy, w, sent[0]);
      SentBound(l, queue, policy, w, at);
      hide Left, Sent, CountActive;
      forall i | 0 <= i < |sent| ensures sent[i] < |GlobalView(l, w, at)| && GlobalView(l, w, at)[sent[i]].Active() {
        SentStillActive(l, queue, policy, w, sent[i], 2 * at + 1);
      }
      NothingLeft(sent, GlobalView(l, w, at), (r: Row) => r.Active());
    }
  }

  /** Some of the jobs sent, all of one risk level. */
  ghost predicate SentOfLevel(l: Db, queue: seq<nat>, policy: Policy, w: World, risk: RiskLevel, sub: seq<nat>)
    requires InTable(l.jobs, queue)
  {
    forall i | 0 <= i < |sub| ::
      sub[i] in Sent(l, queue, policy, w, |queue|) && sub[i] < |l.jobs| && l.jobs[sub[i]].risk == risk
  }

  /** The same for each risk level, at the level test of each job of the level that is sent. */
  lemma SentLevelBound(l: Db, queue: seq<nat>, policy: Policy, w: World, risk: RiskLevel, sub: seq<nat>, i: nat)
    requires IsQueue(l.jobs, queue) && Distinct(sub) && SentOfLevel(l, queue, policy, w, risk, sub)
    requires i < |queue| && queue[i] in sub
    ensures |sub| < CapFor(policy, risk) + |LeftLevel(sub, ClassView(l, w, i), risk)|
  {
    var at := Position(l, queue, policy, w, queue[i]);
    assert at == i;
    CountPlusLeft(sub, ClassView(l, w, i), (r: Row) => ActiveIn(r, risk));
    CountClassIs(ClassView(l, w, i), risk);
  }

  lemma {:induction false} CountClassIs(jobs: seq<Row>, risk: RiskLevel)
    ensures CountClass(jobs, risk) == Count(jobs, (r: Row) => ActiveIn(r, risk))
  {
  }

  /** When no row leaves it sends fewer jobs of each risk level than that level's cap. */
  lemma FewerThanTheLevelCap(l: Db, queue: seq<nat>, policy: Policy, w: World, risk: RiskLevel, sub: seq<nat>)
    requires IsQueue(l.jobs, queue) && Lawful(w) && NobodyLeaves(l, w, |queue|)
    requires Distinct(sub) && sub != [] && SentOfLevel(l, queue, policy, w, risk, sub)
    ensures |sub| < CapFor(policy, risk)
  {
    var at := Position(l, queue, policy, w, sub[0]);
    SentLevelBound(l, queue, policy, w, risk, sub, at);
    hide Left, Sent, CountClass;
    forall i | 0 <= i < |sub| ensures sub[i] < |ClassView(l, w, at)| && ActiveIn(ClassView(l, w, at)[sub[i]], risk) {
      SentStillActive(l, queue, policy, w, sub[i], 2 * at + 2);
    }
    NothingLeft(sub, ClassView(l, w, at), (r: Row) => ActiveIn(r, risk));
  }

  lemma {:induction false} SentStillActive(l: Db, queue: seq<nat>, policy: Policy, w: World, q: nat, n: nat)
    requires IsQueue(l.jobs, queue) && Lawful(w) && NobodyLeaves(l, w, |queue|) && n <= 2 * |queue|
    requires q in Sent(l, queue, policy, w, |queue|)
    ensures var jobs := Looks(l, w, n).jobs; q < |l.jobs| && q < |jobs| && jobs[q].Active() && jobs[q].risk == l.jobs[q].risk
  {
    var i := Position(l, queue, policy, w, q);
    StillActive(l, queue, w, i, n);
  }

  lemma Position(l: Db, queue: seq<nat>, policy: Policy, w: World, q: nat) returns (i: nat)
    requires InTable(l.jobs, queue) && q in Sent(l, queue, policy, w, |queue|)
    ensures i < |queue| && queue[i] == q && Sends(l, queue, policy, w, i)
    ensures CountClass(ClassView(l, w, i), l.jobs[q].risk) < CapFor(policy, l.jobs[q].risk)
  {
    SentOnlyQueued(l, queue, policy, w, |queue|, q);
    i :| i < |queue| && queue[i] == q && Sends(l, queue, policy, w, i);
  }

  ghost predicate NoneActive(jobs: seq<Row>, risk: RiskLevel) {
    forall k | 0 <= k < |jobs| :: !ActiveIn(jobs[k], risk)
  }

  lemma {:induction false} CountZero(jobs: seq<Row>, risk: RiskLevel)
    ensures CountClass(jobs, risk) == 0 <==> NoneActive(jobs, risk)
  {
    var p := (r: Row) => ActiveIn(r, risk);
    CountIsCardinality(jobs, p);
    if k :| 0 <= k < |jobs| && ActiveIn(jobs[k], risk) {
      assert k in Where(jobs, p);
    } else {
      assert Where(jobs, p) == {};
    }
  }

  /** A risk level whose cap is 1: a listed job is sent exactly when the global tests let it
      and no row of its level at all is active at its own test. It must then have left QUEUED
      and RUNNING itself since it was listed. */
  lemma {:induction false} CapOneSends(l: Db, queue: seq<nat>, policy: Policy, w: World, i: nat)
    requires IsQueue(l.jobs, queue) && Lawful(w) && i < |queue| && CapFor(policy, l.jobs[queue[i]].risk) == 1
    ensures queue[i] in Sent(l, queue, policy, w, |queue|) <==>
              Open(l, policy, w, i) && NoneActive(ClassView(l, w, i), l.jobs[queue[i]].risk)
    ensures queue[i] in Sent(l, queue, policy, w, |queue|) ==>
              queue[i] < |ClassView(l, w, i)| && !ClassView(l, w, i)[queue[i]].Active()
  {
    DispatchExact(l, queue, policy, w);
    CountZero(ClassView(l, w, i), l.jobs[queue[i]].risk);
    LooksKeep(l, w, 2 * i + 2);
  }

  /** With the built-in policy a `high_impact_write` job is sent exactly when no such job is
      QUEUED or RUNNING at its own test, and so only after it stopped being queued itself. */
  lemma {:induction false} HighImpactSends(l: Db, queue: seq<nat>, w: World, i: nat)
    requires IsQueue(l.jobs, queue) && Lawful(w) && i < |queue| && l.jobs[queue[i]].risk == HighImpactWrite
    ensures queue[i] in Sent(l, queue, DEFAULT_POLICY, w, |queue|) <==>
              Open(l, DEFAULT_POLICY, w, i) && NoneActive(ClassView(l, w, i), HighImpactWrite)
    ensures queue[i] < |ClassView(l, w, i)| && ClassView(l, w, i)[queue[i]].Active() ==>
              queue[i] !in Sent(l, queue, DEFAULT_POLICY, w, |queue|)
  {
    CapOneSends(l, queue, DEFAULT_POLICY, w, i);
  }

  /** A world in which every row is given one status before the first test. */
  function Turning(status: JobStatus): World {
    World((n: nat, jobs: seq<Row>) => seq(|jobs|, i requires 0 <= i < |jobs| => jobs[i].(status := status)), (n: nat) => 0, (n: nat) => {})
  }

  lemma TurningIsLawful(status: JobStatus)
    ensures Lawful(Turning(status))
  {
  }

  lemma {:induction false} AllInactive(jobs: seq<Row>)
    requires forall k | 0 <= k < |jobs| :: !jobs[k].Active()
    ensures CountActive(jobs) == 0
  {
    var p := (r: Row) => r.Active();
    CountIsCardinality(jobs, p);
    assert Where(jobs, p) == {};
  }

  /** So it happens: a listed high-impact job that is cancelled before its test is sent, and
      with a cap of 2 two listed jobs are sent when both leave QUEUED before the tests. */
  lemma {:induction false} LeavingIsSent(jobs: seq<Row>, queue: seq<nat>, policy: Policy, status: JobStatus, n: nat)
    requires IsQueue(jobs, queue) && n <= |queue| && status != Queued && status != Running
    requires policy.globalCap > 0 && forall risk :: CapFor(policy, risk) > 0
    ensures Lawful(Turning(status)) && Sent(Db(jobs, 0), queue, policy, Turning(status), n) == queue[..n]
  {
    TurningIsLawful(status);
    hide Lawful, Turning;
    if n > 0 {
      LeavingIsSent(jobs, queue, policy, status, n - 1);
      LeavingSends(Db(jobs, 0), queue, policy, status, n - 1);
      hide Sends;
      assert queue[..n] == queue[..n - 1] + [queue[n - 1]];
    }
  }

  lemma LeavingSends(l: Db, queue: seq<nat>, policy: Policy, status: JobStatus, i: nat)
    requires i < |queue| && queue[i] < |l.jobs| && status != Queued && status != Running
    requires policy.globalCap > 0 && forall risk :: CapFor(policy, risk) > 0
    ensures Sends(l, queue, policy, Turning(status), i)
  {
    hide CountActive, CountClass, Looks, CapFor, Turning;
    forall k: nat | k <= i ensures CountActive(GlobalView(l, Turning(status), k)) < policy.globalCap {
      NoneLeft(l, status, 2 * k + 1);
    }
    NoneLeft(l, status, 2 * i + 2);
  }

  lemma {:induction false} NoneLeft(l: Db, status: JobStatus, m: nat)
    requires m > 0 && status != Queued && status != Running
    ensures CountActive(Looks(l, Turning(status), m).jobs) == 0
    ensures forall risk :: CountClass(Looks(l, Turning(status), m).jobs, risk) == 0
  {
    var jobs := Look(Looks(l, Turning(status), m - 1), Turning(status)).jobs;
    AllInactive(jobs);
    forall risk ensures CountClass(jobs, risk) == 0 { CountZero(jobs, risk); }
  }

  // ---------- the wedge ----------

  ghost predicate Ticks(s: Db, t: Tick, w: World, s': Db, broker: seq<nat>, broker': seq<nat>) {
    exists queue, looks :: TickDoes(s, t, w, queue, looks, s', broker, broker')
  }

  ghost predicate TickAt(ss: seq<Db>, brokers: seq<seq<nat>>, ticks: seq<Tick>, ws: seq<World>, i: nat)
    requires i < |ticks| == |ws| && |ss| == |brokers| == |ticks| + 1
  {
    Ticks(ss[i], ticks[i], ws[i], ss[i + 1], brokers[i], brokers[i + 1])
  }

  ghost predicate TicksRun(ss: seq<Db>, brokers: seq<seq<nat>>, ticks: seq<Tick>, ws: seq<World>) {
    && |ss| == |brokers| == |ticks| + 1 && |ws| == |ticks|
    && forall i: nat | i < |ticks| :: TickAt(ss, brokers, ticks, ws, i)
  }

  /** Wedge: once QUEUED plus RUNNING has reached the global cap and no process moves a row out of
      those two states, no number of later ticks sends anything; the count never falls, and
      when the other processes do nothing the table stays as it is. */
  lemma {:induction false} WedgedForever(ss: seq<Db>, brokers: seq<seq<nat>>, ticks: seq<Tick>, ws: seq<World>, n: nat)
    requires TicksRun(ss, brokers, ticks, ws) && n <= |ticks|
    requires forall i | 0 <= i < |ticks| :: Steady(ws[i]) && ticks[i].policy.globalCap <= CountActive(ss[0].jobs)
    ensures brokers[n] == brokers[0] && CountActive(ss[n].jobs) >= CountActive(ss[0].jobs)
    ensures (forall i | 0 <= i < n :: Quiet(ws[i])) ==> ss[n].jobs == ss[0].jobs
  {
    hide CountActive;
    if n > 0 {
      WedgedForever(ss, brokers, ticks, ws, n - 1);
      assert TickAt(ss, brokers, ticks, ws, n - 1);
      SteadyCount(ss[n - 1], ws[n - 1]);
    }
  }

  /** A tick that finds the table at the cap when it makes its first test sends nothing. */
  lemma {:induction false} NothingSent(l: Db, queue: seq<nat>, policy: Policy, w: World)
    requires InTable(l.jobs, queue) && Steady(w) && CountActive(l.jobs) >= policy.globalCap
    ensures Sent(l, queue, policy, w, |queue|) == []
  {
    SteadyCounts(l, w, 1);
    NothingAfter(l, queue, policy, w, 0, |queue|);
  }

  /** A tick whose planning fills the table up to the global cap sends nothing, and no later tick
      does, as long as no process moves a row out of QUEUED or RUNNING. */
  lemma PlanningWedges(ss: seq<Db>, brokers: seq<seq<nat>>, ticks: seq<Tick>, ws: seq<World>, n: nat)
    requires TicksRun(ss, brokers, ticks, ws) && 1 <= n <= |ticks|
    requires forall i | 0 <= i < |ticks| :: Steady(ws[i])
    requires forall i | 0 <= i < |ticks| :: ticks[i].policy.globalCap <= CountActive(Listed(ss[0], ticks[0], ws[0]).jobs)
    requires CountActive(Look(ss[0], ws[0]).jobs) < ticks[0].policy.globalCap
    ensures brokers[n] == brokers[0]
  {
    var l := Listed(ss[0], ticks[0], ws[0]);
    hide CountActive, Listed;
    assert TickAt(ss, brokers, ticks, ws, 0);
    var queue, looks :| TickDoes(ss[0], ticks[0], ws[0], queue, looks, ss[1], brokers[0], brokers[1]);
    NothingSent(l, queue, ticks[0].policy, ws[0]);
    SteadyCounts(l, ws[0], looks);
    forall i: nat | i < |ticks[1..]| ensures TickAt(ss[1..], brokers[1..], ticks[1..], ws[1..], i) {
      assert TickAt(ss, brokers, ticks, ws, i + 1);
      var q, k :| TickDoes(ss[i + 1], ticks[i + 1], ws[i + 1], q, k, ss[i + 2], brokers[i + 1], brokers[i + 2]);
      assert TickDoes(ss[1..][i], ticks[1..][i], ws[1..][i], q, k, ss[1..][i + 1], brokers[1..][i], brokers[1..][i + 1]);
    }
    WedgedForever(ss[1..], brokers[1..], ticks[1..], ws[1..], n - 1);
  }

  // ---------- the wedge is reachable from an empty table ----------

  function DistinctItems(n: nat): seq<Item> {
    seq(n, (i: nat) => Item(Some(i), ReadOnly, 900, false, 50))
  }

  const NO_ADAPTIVE := Adaptive(false, 0, 0, 0.0, 0.0)

  /** Queued rows of the recipes 0, …, n - 1. */
  ghost predicate FirstRecipes(jobs: seq<Row>, n: nat) {
    |jobs| == n && forall k | 0 <= k < n :: jobs[k].status.Queued? && jobs[k].recipe == k
  }

  lemma {:induction false} DistinctItemsAllCreate(s: Db, total: nat, n: nat, c: CaseInfo, w: World)
    requires n <= total && s.jobs == [] && Quiet(w) && forall k: nat :: w.paused(k) == {}
    ensures FirstRecipes(PlanItems(s, c, n, Plan(DistinctItems(total), 900, NO_ADAPTIVE), w).jobs, n)
  {
    if n > 0 {
      DistinctItemsAllCreate(s, total, n - 1, c, w);
      var plan := Plan(DistinctItems(total), 900, NO_ADAPTIVE);
      var b := PlanItems(s, c, n - 1, plan, w);
      var item := plan.items[n - 1];
      assert item == Item(Some(n - 1), ReadOnly, 900, false, 50);
      var slot := SlotOf(c, None, item, 900, 900);
      var a := Look(b, w);
      assert PlanItem(b, c, item, plan, w) == TrySlot(a, slot, w);
      assert a.jobs == b.jobs && Look(a, w).jobs == b.jobs && Look(Look(a, w), w).jobs == b.jobs;
      assert !RecentExists(b.jobs, slot, w.clock(a.step) - 900);
    }
  }

  lemma {:induction false} AllQueuedAllActive(jobs: seq<Row>)
    requires forall k | 0 <= k < |jobs| :: jobs[k].status.Queued?
    ensures CountActive(jobs) == |jobs|
    decreases |jobs|
  {
    if |jobs| > 0 {
      AllQueuedAllActive(jobs[..|jobs| - 1]);
    }
  }

  /** A tick over one case whose plan has `cap` distinct recipes. */
  predicate FillingTick(t: Tick, cap: nat) {
    && t.policy.globalCap == cap && t.policy.perCase > 0 && t.policy.perCaseWrite > 0
    && t.cases == [CaseRow(CaseInfo(1, []), false, Plan(DistinctItems(cap), 900, NO_ADAPTIVE))]
  }

  lemma FillingTickFills(s: Db, cap: nat, t: Tick, w: World)
    requires s.jobs == [] && cap > 0 && FillingTick(t, cap) && Quiet(w) && forall k: nat :: w.paused(k) == {}
    ensures CountActive(Listed(s, t, w).jobs) == cap
  {
    var c := t.cases[0];
    var a := Look(s, w);
    var (b, ok) := Admits(a, c, t.policy, w);
    assert a.jobs == [] && Look(a, w).jobs == [] && b.jobs == [] && ok;
    assert PlanPass(a, t, w, 0) == a && PlanPass(a, t, w, 1) == PlanOne(a, c, t.policy, w) == PlanCase(b, c.info, c.plan, w);
    DistinctItemsAllCreate(b, cap, cap, c.info, w);
    assert Listed(s, t, w).jobs == PlanCase(b, c.info, c.plan, w).jobs;
    AllQueuedAllActive(Listed(s, t, w).jobs);
  }

  /** For every positive cap there is a one-case plan that wedges the scheduler at its
      first tick on an empty table, with per-case limits as generous as one likes: the
      tick plans `cap` jobs, sends none, and no later tick ever sends one. */
  lemma EmptyTableCanWedge(ss: seq<Db>, brokers: seq<seq<nat>>, ticks: seq<Tick>, ws: seq<World>, n: nat, cap: nat)
    requires TicksRun(ss, brokers, ticks, ws) && 1 <= n <= |ticks| && ss[0].jobs == []
    requires cap > 0 && FillingTick(ticks[0], cap) && Quiet(ws[0]) && forall k: nat :: ws[0].paused(k) == {}
    requires forall i | 0 <= i < |ticks| :: Steady(ws[i]) && ticks[i].policy.globalCap <= cap
    ensures brokers[n] == brokers[0] && CountActive(Listed(ss[0], ticks[0], ws[0]).jobs) == cap
  {
    FillingTickFills(ss[0], cap, ticks[0], ws[0]);
    assert Look(ss[0], ws[0]).jobs == [] && CountActive([]) == 0;
    PlanningWedges(ss, brokers, ticks, ws, n);
  }
}
