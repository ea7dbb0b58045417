/** Automatic degraded mode: one check of the selector log, statement by statement. */
module SelectorHealth {
  import opened BotTypes
  import opened Numbers

  datatype LogRow = LogRow(created: int, ok: bool)

  const WINDOW_SECONDS := 3600
  const MIN_SAMPLES := 20
  const THRESHOLD := 0.2

  predicate InWindow(r: LogRow, since: int) { r.created >= since }

  function Total(log: seq<LogRow>, since: int): nat {
    if |log| == 0 then 0 else Total(log[..|log| - 1], since) + (if InWindow(log[|log| - 1], since) then 1 else 0)
  }

  function Oks(log: seq<LogRow>, since: int): nat {
    if |log| == 0 then 0
    else Oks(log[..|log| - 1], since) + (if InWindow(log[|log| - 1], since) && log[|log| - 1].ok then 1 else 0)
  }

  /** What a check decides from its two counts; nothing between the thresholds or with too
      few samples. The second query may see rows the first did not, so `fail` can be negative. */
  function Decision(total: nat, fail: int): Option<bool> {
    if total >= MIN_SAMPLES && FailRate(total, fail) >= THRESHOLD then Some(true)
    else if total >= MIN_SAMPLES && FailRate(total, fail) < THRESHOLD / 2.0 then Some(false)
    else None
  }

  /** In integers: on needs a fifth of the samples failing, off less than a tenth. */
  lemma DecisionByRatio(total: nat, fail: int)
    ensures Decision(total, fail) == Some(true) <==> total >= 20 && 5 * fail >= total
    ensures Decision(total, fail) == Some(false) <==> total >= 20 && 10 * fail < total
  {
    if total >= 20 {
      var f, n := fail as real, total as real;
      assert FailRate(total, fail) == f / n && THRESHOLD / 2.0 == 0.1;
      DivCompare(f, n, 0.2);
      DivCompare(f, n, 0.1);
    }
  }

  lemma DivCompare(f: real, n: real, c: real)
    requires n > 0.0
    ensures f / n >= c <==> f >= c * n
  {
    assert (f / n) * n == f;
    if f / n >= c { MulMono(c, f / n, n); }
    if f / n < c { MulMono(f / n, c, n); assert (f / n) * n < c * n; }
  }

  lemma MulMono(a: real, b: real, n: real)
    requires n > 0.0 && a <= b
    ensures a * n <= b * n && (a < b ==> a * n < b * n)
  {
    assert (b - a) * n >= 0.0;
    assert a < b ==> (b - a) * n > 0.0;
  }

  /** What a check can see, and the number of its statements executed so far. */
  datatype Seen = Seen(log: seq<LogRow>, on: bool, step: nat)

  /** What other processes do before the next statement, and the clock. */
  datatype World = World(others: (nat, Seen) -> Seen, clock: nat -> int)

  function Look(s: Seen, w: World): Seen {
    w.others(s.step, s).(step := s.step + 1)
  }

  class HealthMonitor {
    var log: seq<LogRow>
    var degraded: bool
    var step: nat

    function S(): Seen
      reads this
    {
      Seen(log, degraded, step)
    }

    method OthersAct(w: World)
      modifies this
      ensures S() == Look(old(S()), w)
    {
      var s := Look(S(), w);
      log, degraded, step := s.log, s.on, s.step;
    }

    /** The two counting queries. */
    method ComputeHealth(w: World) returns (total: nat, fail: int)
      modifies this
      ensures var a := Look(old(S()), w);
              var since := w.clock(old(step)) - WINDOW_SECONDS;
              S() == Look(a, w) && total == Total(a.log, since) && fail == total - Oks(log, since)
    {
      var since := w.clock(step) - WINDOW_SECONDS;
      OthersAct(w);
      total := Total(log, since);
      OthersAct(w);
      fail := total - Oks(log, since);
    }

    /** A check stores a value only if its old counts decide for it and the flag, read
        after them, differs. */
    method AutoToggle(w: World) returns (total: nat, fail: int)
      modifies this
      ensures var a := Look(old(S()), w);
              var b := Look(a, w);
              var since := w.clock(old(step)) - WINDOW_SECONDS;
              && total == Total(a.log, since) && fail == total - Oks(b.log, since)
              && S() == if total >= 20 && 5 * fail >= total then Settle(b, w, true)
                        else if total >= 20 && 10 * fail < total then Settle(b, w, false) else b
    {
      total, fail := ComputeHealth(w);
      DecisionByRatio(total, fail);
      if total >= MIN_SAMPLES && FailRate(total, fail) >= THRESHOLD {
        OthersAct(w);
        if !degraded {
          OthersAct(w);
          degraded := true;
        }
      } else if total >= MIN_SAMPLES && FailRate(total, fail) < THRESHOLD / 2.0 {
        OthersAct(w);
        if degraded {
          OthersAct(w);
          degraded := false;
        }
      }
    }
  }

  /** Reading the flag and, if it differs, storing it: two statements. */
  function Settle(b: Seen, w: World, value: bool): Seen {
    var c := Look(b, w);
    if c.on == value then c else Look(c, w).(on := value)
  }
}
