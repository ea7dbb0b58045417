/** The tests that `IdleSystem` asks of the scheduler are those of a tick of the scheduler. */
module IdleTick {
  import opened BotTypes
  import opened Collections
  import opened CaseLock
  import opened JobProtocol
  import opened IdleSystem
  import T = JobTable
  import D = Dispatcher

  /** The protocol's rows and the scheduler's table are the same rows. */
  ghost predicate Mirrors(s: State, jobs: seq<T.Row>, order: Order) {
    && (forall j: JobId :: j in s.jobs <==> j < |jobs|)
    && forall j: JobId | j < |jobs| :: s.jobs[j].status == jobs[j].status && s.jobs[j].risk == jobs[j].risk && order(j) == D.RawKey(jobs[j])
  }

  lemma {:induction false} CountsAgree(s: State, jobs: seq<T.Row>, order: Order)
    requires Mirrors(s, jobs, order)
    ensures T.CountActive(jobs) == |Active(s)|
    ensures forall risk :: D.CountClass(jobs, risk) == |ActiveAt(s, risk)|
  {
    var active := (r: T.Row) => r.Active();
    T.CountIsCardinality(jobs, active);
    assert T.Where(jobs, active) == Active(s);
    forall risk ensures D.CountClass(jobs, risk) == |ActiveAt(s, risk)| {
      var p := (r: T.Row) => D.ActiveIn(r, risk);
      T.CountIsCardinality(jobs, p);
      assert T.Where(jobs, p) == ActiveAt(s, risk);
    }
  }

  // ---------- listings ----------

  function QueuedRows(s: State): set<JobId> {
    set j | j in s.jobs && QueuedIn(s, j)
  }

  /** Rows with none left out that is before one of them. */
  ghost predicate Closed(s: State, rows: set<JobId>, order: Order) {
    rows <= QueuedRows(s) && forall q, a | q in QueuedRows(s) - rows && a in rows :: !Before(q, a, order)
  }

  /** Such rows can be filled up to a whole listing. */
  lemma {:induction false} Fill(s: State, rows: set<JobId>, order: Order) returns (all: set<JobId>)
    requires Closed(s, rows, order) && |rows| <= LISTED
    ensures rows <= all && Closed(s, all, order) && |all| <= LISTED && (|all| == LISTED || all == QueuedRows(s))
    decreases |QueuedRows(s) - rows|
  {
    all := rows;
    var rest := QueuedRows(s) - rows;
    if rest != {} && |rows| < LISTED {
      var k := First(rest, order);
      assert QueuedRows(s) - (rows + {k}) == rest - {k};
      all := Fill(s, rows + {k}, order);
    } else if rest == {} {
      forall q | q in QueuedRows(s) ensures q in rows { assert q !in rest; }
      assert rows == QueuedRows(s);
    }
  }

  lemma {:induction false} Sequence(rows: set<JobId>) returns (queue: seq<nat>)
    ensures D.Distinct(queue) && |queue| == |rows| && forall j :: j in queue <==> j in rows
    decreases rows
  {
    queue := [];
    if rows != {} {
      var j :| j in rows;
      var rest := Sequence(rows - {j});
      queue := rest + [j];
    }
  }

  /** Where a key belongs among sorted ones. */
  lemma {:induction false} Place(ids: seq<nat>, x: nat, key: nat -> D.Key) returns (i: nat)
    requires D.SortedBy(ids, key)
    ensures i <= |ids| && (i > 0 ==> D.KeyLeq(key(ids[i - 1]), key(x)))
    ensures forall k | i <= k < |ids| :: D.KeyLeq(key(x), key(ids[k]))
    decreases |ids|
  {
    i := |ids|;
    if i > 0 && !D.KeyLeq(key(ids[i - 1]), key(x)) {
      i := Place(ids[..|ids| - 1], x, key);
    }
  }

  lemma {:induction false} Sorted(ids: seq<nat>, key: nat -> D.Key) returns (r: seq<nat>)
    ensures D.SortedBy(r, key) && D.SameIds(r, ids)
    decreases |ids|
  {
    r := [];
    if ids != [] {
      var front := Sorted(ids[..|ids| - 1], key);
      var x := ids[|ids| - 1];
      var i := Place(front, x, key);
      r := front[..i] + [x] + front[i..];
      D.InsertedIds(front, x, i);
      D.Inserted(front, x, key, i);
      assert ids == ids[..|ids| - 1] + [ids[|ids| - 1]];
    }
  }

  /** A listable row is in some queue of the scheduler. */
  lemma QueueWith(s: State, jobs: seq<T.Row>, order: Order, j: JobId) returns (queue: seq<nat>)
    requires Mirrors(s, jobs, order) && Listable(s, j, order)
    ensures D.IsQueue(jobs, queue) && j in queue
  {
    var ahead := Ahead(s, j, order);
    assert j !in ahead;
    var rows := Fill(s, ahead + {j}, order);
    queue := Sequence(rows);
    forall i | 0 <= i < |queue| ensures queue[i] < |jobs| && jobs[queue[i]].status.Queued? {
      assert queue[i] in rows;
    }
    forall q: nat | q < |jobs| && jobs[q].status.Queued? && q !in queue
      ensures |queue| == 500 && forall i | 0 <= i < |queue| :: D.KeyLeq(D.RawKey(jobs[queue[i]]), D.RawKey(jobs[q]))
    {
      assert q in QueuedRows(s) - rows;
      forall i | 0 <= i < |queue| ensures D.KeyLeq(D.RawKey(jobs[queue[i]]), D.RawKey(jobs[q])) {
        assert queue[i] in rows && !Before(q, queue[i], order);
      }
    }
  }

  /** Every row in a queue of the scheduler is listable. */
  lemma QueuedIsListable(s: State, jobs: seq<T.Row>, order: Order, queue: seq<nat>, j: JobId)
    requires Mirrors(s, jobs, order) && D.IsQueue(jobs, queue) && j in queue
    ensures Listable(s, j, order)
  {
    var ids := D.SeqSet(queue);
    var at :| 0 <= at < |queue| && queue[at] == j;
    forall k | k in Ahead(s, j, order) ensures k in ids - {j} {
      assert Before(k, j, order);
      assert k !in queue ==> D.KeyLeq(order(j), order(k));
    }
    SubsetSize(Ahead(s, j, order), ids - {j});
  }

  // ---------- one tick ----------

  /** Some tick of the scheduler on this table sends the job. */
  ghost predicate TickSends(jobs: seq<T.Row>, t: D.Tick, w: T.World, j: JobId) {
    exists queue, looks, s', broker :: D.TickDoes(T.Db(jobs, 0), t, w, queue, looks, s', [], broker) && j in broker
  }

  /** With nobody else acting, what a sequence of tests sends of a queue. */
  lemma {:induction false} QuietSends(jobs: seq<T.Row>, n: nat, queue: seq<nat>, policy: D.Policy, w: T.World, j: nat)
    requires D.IsQueue(jobs, queue) && T.Quiet(w)
    ensures j in D.Sent(T.Db(jobs, n), queue, policy, w, |queue|) <==>
              j in queue && T.CountActive(jobs) < policy.globalCap && D.CountClass(jobs, jobs[j].risk) < D.CapFor(policy, jobs[j].risk)
  {
    var l := T.Db(jobs, n);
    D.DispatchExact(l, queue, policy, w);
    forall k: nat ensures D.GlobalView(l, w, k) == jobs && D.ClassView(l, w, k) == jobs {
      T.QuietLooks(l, w, 2 * k + 1);
      T.QuietLooks(l, w, 2 * k + 2);
    }
    hide T.CountActive, D.CountClass, D.Sent, T.Looks, D.CapFor;
    if j in queue {
      var i: nat :| i < |queue| && queue[i] == j;
    }
  }

  /** Exactly: a tick that finds nothing to plan and nobody else acting can send the job if
      and only if the job is listable and the global test and the test of its level pass. */
  lemma TickSendsExactly(s: State, jobs: seq<T.Row>, t: D.Tick, w: T.World, order: Order, j: JobId)
    requires Mirrors(s, jobs, order) && T.Quiet(w) && t.cases == [] && j < |jobs|
    ensures TickSends(jobs, t, w, j) <==>
              Listable(s, j, order) && GlobalOpen(s, t.policy) && LevelOpen(s, s.jobs[j].risk, t.policy)
  {
    CountsAgree(s, jobs, order);
    var a := T.Db(jobs, 0);
    var l := D.Listed(a, t, w);
    assert T.Look(a, w).jobs == jobs && l.jobs == jobs;
    hide T.CountActive, D.CountClass, D.CapFor, D.Sent, D.Listed, T.Looks;
    if TickSends(jobs, t, w, j) {
      var queue, looks, s', broker :| D.TickDoes(a, t, w, queue, looks, s', [], broker) && j in broker;
      QuietSends(jobs, l.step, queue, t.policy, w, j);
      QueuedIsListable(s, jobs, order, queue, j);
    }
    if Listable(s, j, order) && GlobalOpen(s, t.policy) && LevelOpen(s, s.jobs[j].risk, t.policy) {
      var raw := QueueWith(s, jobs, order, j);
      var queue := Sorted(raw, D.KeyOf(jobs, t));
      D.SameQueue(jobs, raw, queue);
      D.SameIdsFacts(raw, queue);
      QuietSends(jobs, l.step, queue, t.policy, w, j);
      assert D.TickDoes(a, t, w, queue, 0, T.Looks(l, w, 0), [], [] + D.Sent(l, queue, t.policy, w, |queue|));
    }
  }
}
