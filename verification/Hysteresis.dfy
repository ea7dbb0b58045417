/** How long the degraded flag stays where it is when any number of workers check at once:
    each check measures with two queries and acts on its counts later. */
module Hysteresis {
  import opened BotTypes
  import opened SelectorHealth

  // ---------- measurements ----------

  /** The logs the two queries of a check saw, and the left edge of its window. The last
      three fields record when it was made: ageing events before its clock reading, rows
      logged before its first query, and toggles before its clock reading. */
  datatype Measure = Measure(since: int, log1: seq<LogRow>, log2: seq<LogRow>, agedAt: nat, loggedAt: nat, round: nat)
  {
    function N(): nat { Total(log1, since) }
    function Fail(): int { Total(log1, since) - Oks(log2, since) }

    /** Good rows logged between the two queries. */
    function Skew(): int { Oks(log2, since) - Oks(log1, since) }
    function Says(): Option<bool> { Decision(N(), Fail()) }
  }

  /** Rows that leave the window when its edge moves from `lo` to `hi`. */
  function Ageing(log: seq<LogRow>, lo: int, hi: int): int {
    Total(log, lo) - Total(log, hi)
  }

  function FailsIn(log: seq<LogRow>, since: int): int {
    Total(log, since) - Oks(log, since)
  }

  /** 10 F - N, which is negative where a check turns off. */
  function P10(log: seq<LogRow>, since: int): int {
    10 * FailsIn(log, since) - Total(log, since)
  }

  /** 5 F - N, which is not negative where a check turns on. */
  function P5(log: seq<LogRow>, since: int): int {
    5 * FailsIn(log, since) - Total(log, since)
  }

  predicate Within(d: int, n: int) { -n <= d <= n }

  /** Moving the edge changes the potentials by at most 9 and 4 for each row that ages. */
  lemma {:induction false} EdgeMoves(log: seq<LogRow>, lo: int, hi: int)
    requires lo <= hi
    ensures Ageing(log, lo, hi) >= 0
    ensures Within(P10(log, hi) - P10(log, lo), 9 * Ageing(log, lo, hi))
    ensures Within(P5(log, hi) - P5(log, lo), 4 * Ageing(log, lo, hi))
    decreases |log|
  {
    if |log| > 0 {
      EdgeMoves(log[..|log| - 1], lo, hi);
    }
  }

  /** So does logging rows, for each of them; good rows only lower the second. */
  lemma {:induction false} LogGrows(log: seq<LogRow>, later: seq<LogRow>, since: int)
    requires log <= later
    ensures Within(P10(later, since) - P10(log, since), 9 * (|later| - |log|))
    ensures Within(P5(later, since) - P5(log, since), 4 * (|later| - |log|))
    ensures var k := Oks(later, since) - Oks(log, since);
            0 <= k <= |later| - |log| && P5(later, since) - P5(log, since) <= 4 * (|later| - |log|) - 5 * k
    decreases |later|
  {
    if |later| > |log| {
      var front := later[..|later| - 1];
      assert log <= front;
      LogGrows(log, front, since);
    } else {
      assert log == later;
    }
  }

  lemma {:induction false} AgeingGrows(log: seq<LogRow>, later: seq<LogRow>, lo: int, hi: int)
    requires log <= later && lo <= hi
    ensures Ageing(log, lo, hi) <= Ageing(later, lo, hi)
    decreases |later|
  {
    if |later| > |log| {
      assert log <= later[..|later| - 1];
      AgeingGrows(log, later[..|later| - 1], lo, hi);
    } else {
      assert log == later;
    }
  }

  function Low(a: int, b: int): int { if a <= b then a else b }

  function High(a: int, b: int): int { if a <= b then b else a }

  /** Log events between two measurements: rows logged between their first queries, and rows
      of the shorter log between their edges. */
  function Apart(a: Measure, b: Measure): int {
    var short, long := if |a.log1| <= |b.log1| then a.log1 else b.log1, if |a.log1| <= |b.log1| then b.log1 else a.log1;
    |long| - |short| + Ageing(short, Low(a.since, b.since), High(a.since, b.since))
  }

  ghost predicate Comparable(a: Measure, b: Measure) {
    (a.log1 <= b.log1 || b.log1 <= a.log1) && a.log1 <= a.log2 && b.log1 <= b.log2
  }

  lemma PotentialsApart(a: Measure, b: Measure)
    requires Comparable(a, b)
    ensures Within(P10(a.log1, a.since) - P10(b.log1, b.since), 9 * Apart(a, b))
    ensures Within(P5(a.log1, a.since) - P5(b.log1, b.since), 4 * Apart(a, b))
  {
    if |a.log1| <= |b.log1| {
      assert a.log1 <= b.log1;
      PotentialStep(a.log1, a.since, b.log1, b.since);
    } else {
      assert b.log1 <= a.log1;
      PotentialStep(b.log1, b.since, a.log1, a.since);
    }
  }

  lemma PotentialStep(log: seq<LogRow>, s: int, later: seq<LogRow>, t: int)
    requires log <= later
    ensures var d := |later| - |log| + Ageing(log, Low(s, t), High(s, t));
            Within(P10(later, t) - P10(log, s), 9 * d) && Within(P5(later, t) - P5(log, s), 4 * d)
  {
    EdgeMoves(log, Low(s, t), High(s, t));
    LogGrows(log, later, t);
    hide P10, P5, Ageing;
  }

  /** A measurement's decision in terms of the potentials of the log its first query saw. */
  lemma SaysByPotential(m: Measure)
    requires m.log1 <= m.log2
    ensures m.Skew() >= 0
    ensures m.Says() == Some(true) <==> m.N() >= 20 && P5(m.log1, m.since) >= 5 * m.Skew()
    ensures m.Says() == Some(false) <==> m.N() >= 20 && P10(m.log1, m.since) < 10 * m.Skew()
    ensures 2 * P5(m.log1, m.since) == P10(m.log1, m.since) - m.N()
  {
    LogGrows(m.log1, m.log2, m.since);
    DecisionByRatio(m.N(), m.Fail());
  }

  /** Dwell: between two measurements that decide opposite things, in whichever order they
      were made, lie more than n/9 log events, n being the samples of the one that decides
      on, and more than n/8, n being the samples of the one that decides off, up to ten
      ninths (ten eighths) of the good rows logged between the two queries of the latter. */
  lemma OppositeMeasuresApart(on: Measure, off: Measure)
    requires Comparable(on, off) && on.Says() == Some(true) && off.Says() == Some(false)
    ensures on.N() >= 20 && 9 * Apart(on, off) + 10 * off.Skew() > on.N()
    ensures off.N() >= 20 && 8 * Apart(on, off) + 10 * off.Skew() > off.N()
  {
    PotentialsApart(on, off);
    SaysByPotential(on);
    SaysByPotential(off);
    hide P10, P5, Apart;
  }

  /** Measurement `b` began after `a` had ended. */
  ghost predicate Follows(a: Measure, b: Measure) {
    a.log1 <= a.log2 <= b.log1 <= b.log2 && a.since <= b.since
  }

  /** Log events between the first queries of two measurements that follow one another. */
  function Between(a: Measure, b: Measure): int {
    |b.log1| - |a.log1| + Ageing(a.log2, a.since, b.since)
  }

  /** For such measurements the good rows of an off-measurement's own gap are among the events
      that follow it: more than n/9 events lie between on and off up to the correction, more
      than n/8 between off and on without any. */
  lemma FollowingApart(a: Measure, b: Measure)
    requires Follows(a, b)
    ensures a.Says() == Some(true) && b.Says() == Some(false) ==> a.N() >= 20 && 9 * Between(a, b) + 10 * b.Skew() > a.N()
    ensures a.Says() == Some(false) && b.Says() == Some(true) ==> a.N() >= 20 && 8 * Between(a, b) > a.N()
  {
    SaysByPotential(a);
    SaysByPotential(b);
    LogGrows(a.log1, a.log2, a.since);
    EdgeMoves(a.log2, a.since, b.since);
    LogGrows(a.log2, b.log1, b.since);
    hide P10, P5, Ageing;
  }

  /** The correction is real: with 20 samples, 5 of them failing, and 4 good rows logged
      between the two queries, a check turns the flag off although the failing share is
      above the threshold in the log both before and after. */
  lemma SkewMisleads(m: Measure)
    requires m.log1 <= m.log2 && m.N() == 20 && FailsIn(m.log1, m.since) == 5 && m.Skew() == 4
    requires Total(m.log2, m.since) == 24
    ensures m.Says() == Some(false)
    ensures Decision(20, FailsIn(m.log1, m.since)) == Some(true)
    ensures Decision(24, FailsIn(m.log2, m.since)) == Some(true)
  {
    SaysByPotential(m);
    DecisionByRatio(20, FailsIn(m.log1, m.since));
    DecisionByRatio(24, FailsIn(m.log2, m.since));
  }

  // ---------- many workers ----------

  type WorkerId = nat

  datatype Pc =
    | Idle
    | Clocked(since: int, agedAt: nat, round: nat)
    | Counted(since: int, log1: seq<LogRow>, agedAt: nat, loggedAt: nat, round: nat)
    | Measured(m: Measure)   // counts taken, flag not read yet
    | Acting(m: Measure)     // flag read and different, not stored yet

  /** A row is logged; time passes, moving the windows' left edge; a worker reads the clock,
      counts, counts the good ones, reads the flag, stores it, or dies. */
  datatype Event = Logged(row: LogRow) | Passed(to: int)
                 | ReadsClock(w: WorkerId) | CountsAll(w: WorkerId) | CountsGood(w: WorkerId)
                 | ReadsFlag(w: WorkerId) | Stores(w: WorkerId) | Dies(w: WorkerId)

  /** `logged` and `aged` count log events: rows logged, and rows leaving the window (a row
      logged outside it counts as both). `toggles` counts changes of the flag, `stale` those
      decided by a check that began before the previous change, `skew` the good rows logged
      between the two queries of the checks that turned the flag off. `last` is the
      measurement behind the last change; `markL` and `markA` record where the last change
      that was not stale was measured. */
  datatype State = State(log: seq<LogRow>, edge: int, on: bool, checks: map<WorkerId, Pc>,
                         logged: nat, aged: nat, toggles: nat, stale: nat, skew: int,
                         last: Option<Measure>, lastStale: bool, markL: nat, markA: nat)

  function At(s: State, w: WorkerId): Pc {
    if w in s.checks then s.checks[w] else Idle
  }

  predicate Enabled(s: State, e: Event) {
    match e
    case Logged(_) => true
    case Passed(to) => to >= s.edge
    case ReadsClock(w) => At(s, w).Idle?
    case CountsAll(w) => At(s, w).Clocked?
    case CountsGood(w) => At(s, w).Counted?
    case ReadsFlag(w) => At(s, w).Measured?
    case Stores(w) => At(s, w).Acting? && At(s, w).m.Says().Some?
    case Dies(w) => true
  }

  function MeasureOf(s: State, p: Pc): Measure
    requires p.Counted?
  {
    Measure(p.since, p.log1, s.log, p.agedAt, p.loggedAt, p.round)
  }

  /** The worker stores what its measurement says. */
  function Stored(s: State, w: WorkerId, m: Measure): State
    requires m.Says().Some?
  {
    var on := m.Says().value;
    var t := s.(on := on, checks := s.checks[w := Idle]);
    if on == s.on then t
    else
      var isStale := m.round != s.toggles;
      t.(toggles := s.toggles + 1, stale := if isStale then s.stale + 1 else s.stale,
         skew := if on then s.skew else s.skew + m.Skew(), last := Some(m), lastStale := isStale,
         markL := if isStale then s.markL else m.loggedAt, markA := if isStale then s.markA else m.agedAt)
  }

  function Next(s: State, e: Event): State
    requires Enabled(s, e)
  {
    match e
    case Logged(row) =>
      s.(log := s.log + [row], logged := s.logged + 1, aged := if InWindow(row, s.edge) then s.aged else s.aged + 1)
    case Passed(to) =>
      EdgeMoves(s.log, s.edge, to);
      s.(edge := to, aged := s.aged + Ageing(s.log, s.edge, to))
    case ReadsClock(w) => s.(checks := s.checks[w := Clocked(s.edge, s.aged, s.toggles)])
    case CountsAll(w) =>
      var p := At(s, w);
      s.(checks := s.checks[w := Counted(p.since, s.log, p.agedAt, s.logged, p.round)])
    case CountsGood(w) =>
      var m := MeasureOf(s, At(s, w));
      s.(checks := s.checks[w := if m.Says().None? then Idle else Measured(m)])
    case ReadsFlag(w) =>
      var m := At(s, w).m;
      s.(checks := s.checks[w := if m.Says() == Some(s.on) then Idle else Acting(m)])
    case Stores(w) => Stored(s, w, At(s, w).m)
    case Dies(w) => s.(checks := s.checks[w := Idle])
  }

  predicate Starts(s: State) {
    s.checks == map[] && s.logged == s.aged == s.toggles == s.stale == s.markL == s.markA == 0 && s.skew == 0 && s.last.None?
  }

  ghost predicate StepAt(ss: seq<State>, es: seq<Event>, i: nat)
    requires i < |es| && |ss| == |es| + 1
  {
    Enabled(ss[i], es[i]) && ss[i + 1] == Next(ss[i], es[i])
  }

  ghost predicate IsRun(ss: seq<State>, es: seq<Event>) {
    |ss| == |es| + 1 && Starts(ss[0]) && forall i: nat | i < |es| :: StepAt(ss, es, i)
  }

  // ---------- what every run keeps ----------

  /** A window edge read when `agedAt` rows had aged: rows that left since then were counted. */
  ghost predicate EdgeKnown(s: State, since: int, agedAt: nat) {
    since <= s.edge && agedAt <= s.aged && Ageing(s.log, since, s.edge) <= s.aged - agedAt
  }

  /** `log1` was the log when `loggedAt` rows had been logged. */
  ghost predicate LogKnown(s: State, log1: seq<LogRow>, loggedAt: nat) {
    log1 <= s.log && |s.log| - |log1| == s.logged - loggedAt
  }

  ghost predicate MeasureKnown(s: State, m: Measure) {
    EdgeKnown(s, m.since, m.agedAt) && LogKnown(s, m.log1, m.loggedAt) && m.log1 <= m.log2 <= s.log
  }

  /** How a check that began after the last change relates to its measurement. */
  ghost predicate ClockAfter(s: State, since: int, agedAt: nat, round: nat) {
    round <= s.toggles
    && (round == s.toggles ==>
          && s.markA <= agedAt
          && (s.last.Some? ==> s.last.value.since <= since && s.last.value.agedAt <= agedAt
                               && Ageing(s.last.value.log2, s.last.value.since, since) <= agedAt - s.last.value.agedAt))
  }

  ghost predicate CountAfter(s: State, log1: seq<LogRow>, loggedAt: nat, round: nat) {
    round == s.toggles ==> s.markL <= loggedAt && (s.last.Some? ==> s.last.value.log2 <= log1)
  }

  ghost predicate PcKnown(s: State, p: Pc) {
    match p
    case Idle => true
    case Clocked(since, agedAt, round) => EdgeKnown(s, since, agedAt) && ClockAfter(s, since, agedAt, round)
    case Counted(since, log1, agedAt, loggedAt, round) =>
      && EdgeKnown(s, since, agedAt) && ClockAfter(s, since, agedAt, round)
      && LogKnown(s, log1, loggedAt) && CountAfter(s, log1, loggedAt, round)
    case Measured(m) => MeasureAfter(s, m)
    case Acting(m) => MeasureAfter(s, m)
  }

  ghost predicate MeasureAfter(s: State, m: Measure) {
    && MeasureKnown(s, m) && ClockAfter(s, m.since, m.agedAt, m.round) && CountAfter(s, m.log1, m.loggedAt, m.round)
    && m.Says().Some?
  }

  /** The last change and the charges made so far: three for every change after the first
      that neither is stale nor follows a stale one. */
  ghost predicate Charged(s: State) {
    && s.markL <= s.logged && s.markA <= s.aged && s.skew >= 0 && s.stale <= s.toggles
    && (s.last.None? <==> s.toggles == 0)
    && (s.last.Some? ==> MeasureKnown(s, s.last.value) && s.last.value.Says() == Some(s.on)
                         && (!s.lastStale ==> s.markL == s.last.value.loggedAt && s.markA == s.last.value.agedAt)
                         && (s.lastStale ==> s.stale > 0)
                         && 3 * (s.toggles - 1 - 2 * s.stale) + (if s.lastStale then 3 else 0) <= s.markL + s.markA + s.skew)
  }

  ghost predicate Inv(s: State) {
    Charged(s) && forall w | w in s.checks :: PcKnown(s, s.checks[w])
  }

  lemma EdgesAdd(log: seq<LogRow>, a: int, b: int, c: int)
    ensures Ageing(log, a, c) == Ageing(log, a, b) + Ageing(log, b, c)
  {
  }

  lemma {:induction false} RowAges(log: seq<LogRow>, row: LogRow, lo: int, hi: int)
    ensures Ageing(log + [row], lo, hi) == Ageing(log, lo, hi) + (if InWindow(row, lo) then 1 else 0) - (if InWindow(row, hi) then 1 else 0)
  {
    assert (log + [row])[..|log|] == log;
  }

  lemma EdgeKnownStep(s: State, e: Event, since: int, agedAt: nat)
    requires Enabled(s, e) && EdgeKnown(s, since, agedAt)
    ensures EdgeKnown(Next(s, e), since, agedAt)
  {
    match e
    case Logged(row) => RowAges(s.log, row, since, s.edge);
    case Passed(to) =>
      EdgeMoves(s.log, s.edge, to);
      EdgesAdd(s.log, since, s.edge, to);
    case _ =>
  }

  lemma MeasureKnownStep(s: State, e: Event, m: Measure)
    requires Enabled(s, e) && MeasureKnown(s, m)
    ensures MeasureKnown(Next(s, e), m)
  {
    EdgeKnownStep(s, e, m.since, m.agedAt);
    hide EdgeKnown, Ageing;
  }

  /** The flag changes: no check begun earlier counts as begun after the last change. */
  predicate Changes(s: State, e: Event) {
    e.Stores? && At(s, e.w).Acting? && At(s, e.w).m.Says().Some? && At(s, e.w).m.Says().value != s.on
  }

  lemma OtherPcStep(s: State, e: Event, p: Pc)
    requires Enabled(s, e) && PcKnown(s, p)
    ensures PcKnown(Next(s, e), p)
  {
    if p.Clocked? || p.Counted? { EdgeKnownStep(s, e, p.since, p.agedAt); }
    if p.Measured? || p.Acting? { MeasureKnownStep(s, e, p.m); }
    if p.Counted? { LogKnownStep(s, e, p.log1, p.loggedAt); }
    AfterStep(s, e);
    hide EdgeKnown, LogKnown, MeasureKnown, Ageing, Next, Enabled, Charged, Decision, Changes;
  }

  lemma LogKnownStep(s: State, e: Event, log1: seq<LogRow>, loggedAt: nat)
    requires Enabled(s, e) && LogKnown(s, log1, loggedAt)
    ensures LogKnown(Next(s, e), log1, loggedAt)
  {
  }

  /** What a check knows about the last change stays true until the next one. */
  lemma AfterStep(s: State, e: Event)
    requires Enabled(s, e)
    ensures var t := Next(s, e);
            if Changes(s, e) then t.toggles == s.toggles + 1
            else t.toggles == s.toggles && t.last == s.last && t.markA == s.markA && t.markL == s.markL && t.lastStale == s.lastStale
                 && t.stale == s.stale && t.skew == s.skew && t.on == s.on
  {
  }

  /** A check that reads the clock now begins after the last change. */
  lemma ClockNow(s: State)
    requires Inv(s)
    ensures EdgeKnown(s, s.edge, s.aged) && ClockAfter(s, s.edge, s.aged, s.toggles)
  {
    if s.last.Some? {
      AgeingGrows(s.last.value.log2, s.log, s.last.value.since, s.edge);
    }
  }

  lemma OwnPcStep(s: State, e: Event, w: WorkerId)
    requires Inv(s) && Enabled(s, e) && !e.Logged? && !e.Passed? && e.w == w
    ensures PcKnown(Next(s, e), At(Next(s, e), w))
  {
    ClockNow(s);
    assert PcKnown(s, At(s, w));
    match e
    case CountsAll(_) =>
    case CountsGood(_) => assert MeasureKnown(s, MeasureOf(s, At(s, w)));
    case _ =>
  }

  /** The charge for a change: three log events, or good rows in its own gap, unless it is
      stale or follows a stale one. */
  lemma ChangeCharged(s: State, m: Measure)
    requires Charged(s) && MeasureAfter(s, m) && s.last.Some? && m.Says().value != s.on && m.round == s.toggles
    ensures 3 <= m.loggedAt - s.last.value.loggedAt + m.agedAt - s.last.value.agedAt + (if m.Says() == Some(false) then m.Skew() else 0)
  {
    var l := s.last.value;
    FollowingApart(l, m);
    assert Between(l, m) <= m.loggedAt - l.loggedAt + m.agedAt - l.agedAt;
    EdgeMoves(l.log2, l.since, m.since);
    assert Between(l, m) >= 0;
    LogGrows(m.log1, m.log2, m.since);
    hide Between, Ageing;
  }

  lemma ChangeStep(s: State, e: Event)
    requires Inv(s) && Enabled(s, e) && Changes(s, e)
    ensures Charged(Next(s, e))
  {
    var m := At(s, e.w).m;
    assert MeasureAfter(s, m);
    LogGrows(m.log1, m.log2, m.since);
    if s.last.Some? && m.round == s.toggles {
      ChangeCharged(s, m);
    }
    MeasureKnownStep(s, e, m);
    hide MeasureKnown, Decision;
  }

  lemma InvStep(s: State, e: Event)
    requires Inv(s) && Enabled(s, e)
    ensures Inv(Next(s, e))
  {
    var t := Next(s, e);
    if Changes(s, e) {
      ChangeStep(s, e);
    } else {
      AfterStep(s, e);
      CountersGrow(s, e);
      if s.last.Some? { MeasureKnownStep(s, e, s.last.value); }
    }
    forall w | w in t.checks ensures PcKnown(t, t.checks[w]) {
      if !e.Logged? && !e.Passed? && e.w == w {
        OwnPcStep(s, e, w);
      } else {
        assert w in s.checks && t.checks[w] == s.checks[w];
        OtherPcStep(s, e, s.checks[w]);
      }
    }
  }

  lemma CountersGrow(s: State, e: Event)
    requires Enabled(s, e)
    ensures s.logged <= Next(s, e).logged && s.aged <= Next(s, e).aged
  {
    if e.Passed? { EdgeMoves(s.log, s.edge, e.to); }
  }

  lemma {:induction false} InvAlways(ss: seq<State>, es: seq<Event>, k: nat)
    requires IsRun(ss, es) && k <= |es|
    ensures Inv(ss[k])
  {
    if k > 0 {
      InvAlways(ss, es, k - 1);
      assert StepAt(ss, es, k - 1);
      InvStep(ss[k - 1], es[k - 1]);
    }
  }

  // ---------- main results ----------

  /** Dwell over every run: when a check that began after the last change of the flag is
      about to change it back, more than n/9 log events (n the samples the last change saw)
      lie between the two measurements if it turns off, up to ten ninths of the good rows
      logged between its own two queries, and more than n/8 if it turns on. */
  lemma Dwell(ss: seq<State>, es: seq<Event>, k: nat)
    requires IsRun(ss, es) && k < |es| && Changes(ss[k], es[k]) && ss[k].last.Some? && At(ss[k], es[k].w).m.round == ss[k].toggles
    ensures var l, m := ss[k].last.value, At(ss[k], es[k].w).m;
            var events := m.loggedAt - l.loggedAt + m.agedAt - l.agedAt;
            && l.N() >= 20
            && (m.Says() == Some(false) ==> 9 * events + 10 * m.Skew() > l.N())
            && (m.Says() == Some(true) ==> 8 * events > l.N())
  {
    InvAlways(ss, es, k);
    assert StepAt(ss, es, k);
    var s, m := ss[k], At(ss[k], es[k].w).m;
    assert MeasureAfter(s, m);
    FollowingApart(s.last.value, m);
    hide Decision;
  }

  /** Over any run with any number of workers, `E` log events allow at most 1 + (E + K)/3
      changes of the flag plus two for every stale one, `K` being the good rows logged
      between the two queries of the checks that turned it off. */
  lemma TogglesAreBounded(ss: seq<State>, es: seq<Event>, k: nat)
    requires IsRun(ss, es) && k <= |es|
    ensures 3 * ss[k].toggles <= 3 + 6 * ss[k].stale + (ss[k].logged + ss[k].aged) + ss[k].skew
  {
    InvAlways(ss, es, k);
  }

  /** If every change is decided by a check that began after the previous one, and no good
      row is logged between the two queries of a check that turns off, E log events allow at
      most 1 + E/3 changes. */
  lemma TogglesAreRare(ss: seq<State>, es: seq<Event>, k: nat)
    requires IsRun(ss, es) && k <= |es| && ss[k].stale == 0 && ss[k].skew == 0
    ensures 3 * ss[k].toggles <= 3 + ss[k].logged + ss[k].aged
  {
    TogglesAreBounded(ss, es, k);
  }

  // ---------- stale checks toggle without limit ----------

  ghost predicate Reaches(s: State) {
    exists ss, es :: IsRun(ss, es) && ss[|es|] == s
  }

  lemma Go(s: State, e: Event) returns (t: State)
    requires Reaches(s) && Enabled(s, e)
    ensures Reaches(t) && t == Next(s, e)
  {
    var ss, es :| IsRun(ss, es) && ss[|es|] == s;
    t := Next(s, e);
    var ss', es' := ss + [t], es + [e];
    forall i: nat | i < |es'| ensures StepAt(ss', es', i) {
      if i < |es| { assert StepAt(ss, es, i); }
    }
    assert IsRun(ss', es') && ss'[|es'|] == t;
  }

  /** `n` equal rows. */
  function Rows(n: nat, created: int, ok: bool): seq<LogRow> {
    seq(n, i => LogRow(created, ok))
  }

  lemma {:induction false} CountRows(log: seq<LogRow>, n: nat, created: int, ok: bool, since: int)
    ensures Total(log + Rows(n, created, ok), since) == Total(log, since) + (if created >= since then n else 0)
    ensures Oks(log + Rows(n, created, ok), since) == Oks(log, since) + (if created >= since && ok then n else 0)
    decreases n
  {
    if n == 0 {
      assert log + Rows(n, created, ok) == log;
    } else {
      var longer := log + Rows(n, created, ok);
      assert longer[..|longer| - 1] == log + Rows(n - 1, created, ok);
      CountRows(log, n - 1, created, ok, since);
    }
  }

  /** 24 rows, 5 of them failing, of which 3 leave the window at edge 1. */
  function ExampleLog(): seq<LogRow> {
    Rows(3, 0, false) + Rows(2, 9, false) + Rows(19, 9, true)
  }

  lemma ExampleCounts()
    ensures Total(ExampleLog(), 0) == 24 && Oks(ExampleLog(), 0) == 19 && Decision(24, 5) == Some(true)
    ensures Total(ExampleLog(), 1) == 21 && Oks(ExampleLog(), 1) == 19 && Decision(21, 2) == Some(false)
  {
    forall since: int ensures Total(ExampleLog(), since) == (if 0 >= since then 3 else 0) + (if 9 >= since then 21 else 0)
                              && Oks(ExampleLog(), since) == if 9 >= since then 19 else 0 {
      assert [] + Rows(3, 0, false) == Rows(3, 0, false);
      CountRows([], 3, 0, false, since);
      CountRows(Rows(3, 0, false), 2, 9, false, since);
      CountRows(Rows(3, 0, false) + Rows(2, 9, false), 19, 9, true, since);
    }
    DecisionByRatio(24, 5);
    DecisionByRatio(21, 2);
  }

  const OLD := Measure(0, ExampleLog(), ExampleLog(), 0, 0, 0)

  /** The old counts say on; those of a check at edge 1 say off, without skew. */
  lemma WhatTheySay(m: Measure)
    requires m.log1 == m.log2 == ExampleLog() && 0 <= m.since <= 1
    ensures m.Says() == Some(m.since == 0) && m.Skew() == 0
  {
    ExampleCounts();
    hide Total, Oks, Decision, ExampleLog;
    assert m.since == 0 || m.since == 1;
  }

  /** Workers `k`, …, `n - 1` have measured the old log; all others are idle. */
  ghost predicate Waiting(s: State, k: nat, n: nat) {
    && s.log == ExampleLog() && !s.on && s.logged == 0
    && forall w: WorkerId :: At(s, w) == if k <= w < n then Measured(OLD) else Idle
  }

  /** A worker measures the log as it is now, if that decides something. */
  lemma Measures(s: State, w: WorkerId) returns (t: State)
    requires Reaches(s) && At(s, w).Idle? && Measure(s.edge, s.log, s.log, s.aged, s.logged, s.toggles).Says().Some?
    ensures Reaches(t) && t == s.(checks := t.checks)
    ensures forall v: WorkerId :: At(t, v) == if v == w then Measured(Measure(s.edge, s.log, s.log, s.aged, s.logged, s.toggles)) else At(s, v)
  {
    hide Reaches, Decision;
    t := Go(s, ReadsClock(w));
    t := Go(t, CountsAll(w));
    t := Go(t, CountsGood(w));
  }

  /** A worker that has measured changes the flag. */
  lemma Acts(s: State, w: WorkerId) returns (t: State)
    requires Reaches(s) && At(s, w).Measured? && At(s, w).m.Says() == Some(!s.on)
    ensures Reaches(t) && t == Stored(s, w, At(s, w).m).(checks := t.checks)
    ensures forall v: WorkerId :: At(t, v) == if v == w then Idle else At(s, v)
  {
    hide Reaches, Decision;
    t := Go(s, ReadsFlag(w));
    t := Go(t, Stores(w));
  }

  lemma BeforeAll() returns (s: State)
    ensures Reaches(s) && Waiting(s, 0, 0) && s.edge == 0 && s.aged == 0 && s.toggles == 0 && s.stale == 0 && s.skew == 0
  {
    hide ExampleLog;
    s := State(ExampleLog(), 0, false, map[], 0, 0, 0, 0, 0, None, false, 0, 0);
    assert IsRun([s], []);
  }

  lemma OneMore(s: State, n: nat) returns (t: State)
    requires Reaches(s) && Waiting(s, 0, n) && s.edge == 0 && s.aged == 0 && s.toggles == 0
    ensures Reaches(t) && Waiting(t, 0, n + 1) && t == s.(checks := t.checks)
  {
    hide Reaches, ExampleLog, At, Measure.N, Measure.Fail, Measure.Skew, Measure.Says;
    WhatTheySay(OLD);
    t := Measures(s, n);
  }

  lemma {:induction false} ManyMeasure(n: nat) returns (s: State)
    ensures Reaches(s) && Waiting(s, 0, n) && s.edge == 0 && s.aged == 0 && s.toggles == 0 && s.stale == 0 && s.skew == 0
  {
    hide Reaches, Waiting;
    if n == 0 {
      s := BeforeAll();
    } else {
      s := ManyMeasure(n - 1);
      s := OneMore(s, n - 1);
    }
  }

  /** One waiting worker turns the flag on from its old counts and a fresh check turns it off
      again, without any log event. */
  lemma OnAndOff(s: State, k: nat, n: nat) returns (t: State)
    requires Reaches(s) && Waiting(s, k, n) && k < n && s.edge == 1
    ensures Reaches(t) && Waiting(t, k + 1, n) && t.edge == 1 && t.aged == s.aged && t.toggles == s.toggles + 2
    ensures t.stale == (if s.toggles == 0 then s.stale else s.stale + 1) && t.skew == s.skew
  {
    hide Reaches, Decision, ExampleLog, At, Measure.N, Measure.Fail, Measure.Skew, Measure.Says;
    WhatTheySay(OLD);
    t := Acts(s, k);
    WhatTheySay(Measure(1, t.log, t.log, t.aged, t.logged, t.toggles));
    t := Measures(t, k);
    t := Acts(t, k);
  }

  lemma {:induction false} AllWaitingToggle(s: State, k: nat, n: nat) returns (t: State)
    requires Reaches(s) && Waiting(s, k, n) && k <= n && s.edge == 1
    ensures Reaches(t) && t.logged == 0 && t.aged == s.aged && t.toggles == s.toggles + 2 * (n - k) && t.skew == s.skew
    ensures t.stale == s.stale + n - k - (if s.toggles == 0 && k < n then 1 else 0)
    decreases n - k
  {
    t := s;
    if k < n {
      t := OnAndOff(s, k, n);
      hide Reaches, Waiting;
      t := AllWaitingToggle(t, k + 1, n);
    }
  }

  /** The bound is attained for every number of stale checks: with three log events the flag
      can change 2n times, n - 1 of them stale. */
  lemma StaleChecksToggle(n: nat) returns (s: State)
    requires n > 0
    ensures Reaches(s) && s.logged + s.aged == 3 && s.toggles == 2 * n && s.stale == n - 1 && s.skew == 0
    ensures 3 * s.toggles == 3 + 6 * s.stale + (s.logged + s.aged) + s.skew
  {
    s := ManyMeasure(n);
    ExampleCounts();
    var t := Go(s, Passed(1));
    hide Reaches, ExampleLog;
    assert forall w: WorkerId :: At(t, w) == At(s, w);
    assert t.aged == 3;
    s := AllWaitingToggle(t, 0, n);
  }
}
