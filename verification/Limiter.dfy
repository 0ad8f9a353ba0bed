/** The per-key rate limiter with fixed windows and lazy pruning. Times are counted from the
    zero time, which is also the start of the window of an unknown key. */
module Limiter {

  datatype Window = Window(start: int, count: nat)

  type Windows = map<string, Window>

  datatype Call = Call(key: string, at: int)

  const PRUNE_ABOVE := 10000

  function Lookup(windows: Windows, key: string): Window {
    if key in windows then windows[key] else Window(0, 0)
  }

  /** The window that a call at `now` is counted in. */
  function Current(w: Window, now: int, period: int): Window {
    if now - w.start > period then Window(now, 0) else w
  }

  function Counted(windows: Windows, period: int, c: Call): Window {
    var w := Current(Lookup(windows, c.key), c.at, period);
    Window(w.start, w.count + 1)
  }

  /** Drops the windows that started more than two periods ago, once there are many. */
  function Prune(windows: Windows, period: int, now: int): Windows {
    if |windows| > PRUNE_ABOVE
    then map k | k in windows && !(now - windows[k].start > 2 * period) :: windows[k]
    else windows
  }

  /** The table once the candidates `done` have been looked at. */
  function Dropped(windows: Windows, period: int, now: int, done: set<string>): Windows {
    map k | k in windows && !(k in done && now - windows[k].start > 2 * period) :: windows[k]
  }

  /** Looks at every candidate, in an arbitrary order. */
  method DropExpired(windows: Windows, period: int, now: int) returns (kept: Windows)
    ensures kept == Dropped(windows, period, now, windows.Keys)
  {
    kept := windows;
    var todo := windows.Keys;
    ghost var done: set<string> := {};
    while todo != {}
      invariant done + todo == windows.Keys && kept == Dropped(windows, period, now, done)
      decreases |todo|
    {
      var k :| k in todo;
      DroppedStep(windows, period, now, done, k);
      if now - windows[k].start > 2 * period {
        kept := kept - {k};
      }
      done, todo := done + {k}, todo - {k};
    }
    assert done == windows.Keys;
  }

  lemma DroppedStep(windows: Windows, period: int, now: int, done: set<string>, k: string)
    requires k in windows
    ensures var kept := Dropped(windows, period, now, done);
            Dropped(windows, period, now, done + {k}) == if now - windows[k].start > 2 * period then kept - {k}
            else kept
  {
  }

  function Step(windows: Windows, period: int, c: Call): Windows {
    windows[c.key := Counted(windows, period, c)]
  }

  class RateLimiter {
    const limit: nat
    const period: int
    var windows: Windows

    constructor (limit: nat, period: int)
      ensures this.limit == limit && this.period == period && windows == map[]
    {
      this.limit, this.period, windows := limit, period, map[];
    }

    /** Prunes, counts the call in its window and answers whether the count is within the limit. */
    method Allow(c: Call) returns (allowed: bool)
      modifies this
      ensures windows == Step(Prune(old(windows), period, c.at), period, c)
      ensures allowed <==> windows[c.key].count <= limit
    {
      if |windows| > PRUNE_ABOVE {
        windows := DropExpired(windows, period, c.at);
      }
      var w := Lookup(windows, c.key);
      if c.at - w.start > period {
        w := Window(c.at, 0);
      }
      w := Window(w.start, w.count + 1);
      windows := windows[c.key := w];
      allowed := w.count <= limit;
    }
  }

  // ---------- pruning is invisible ----------

  /** The state after some calls, with or without pruning. */
  function Run(calls: seq<Call>, period: int, pruning: bool): Windows {
    if calls == [] then map[]
    else
      var c := calls[|calls| - 1];
      var before := Run(calls[..|calls| - 1], period, pruning);
      Step(if pruning then Prune(before, period, c.at) else before, period, c)
  }

  /** The answer to the last call. */
  predicate Answer(calls: seq<Call>, limit: nat, period: int, pruning: bool)
    requires calls != []
  {
    RunHasLast(calls, period, pruning);
    Run(calls, period, pruning)[calls[|calls| - 1].key].count <= limit
  }

  lemma RunHasLast(calls: seq<Call>, period: int, pruning: bool)
    requires calls != []
    ensures calls[|calls| - 1].key in Run(calls, period, pruning)
  {
  }

  /** The clock does not run backwards, and is more than a period past the zero time. */
  predicate Clock(calls: seq<Call>, period: int) {
    && period >= 0
    && (forall i :: 0 <= i < |calls| ==> calls[i].at > period)
    && (forall i, j :: 0 <= i < j < |calls| ==> calls[i].at <= calls[j].at)
  }

  /** The pruned table agrees with the full one, except for windows that are over by `now`. */
  ghost predicate Simulates(pruned: Windows, full: Windows, period: int, now: int) {
    && (forall k :: k in pruned ==> k in full && pruned[k] == full[k])
    && (forall k :: k in full && k !in pruned ==> now - full[k].start > period)
  }

  lemma SimulationStep(pruned: Windows, full: Windows, period: int, now: int, c: Call)
    requires period >= 0 && c.at > period && now <= c.at && Simulates(pruned, full, period, now)
    ensures Simulates(Step(Prune(pruned, period, c.at), period, c), Step(full, period, c), period, c.at)
    ensures Counted(Prune(pruned, period, c.at), period, c) == Counted(full, period, c)
  {
  }

  lemma {:induction false} Simulation(calls: seq<Call>, period: int, now: int)
    requires Clock(calls, period) && (calls != [] ==> now == calls[|calls| - 1].at)
    ensures Simulates(Run(calls, period, true), Run(calls, period, false), period, now)
  {
    if calls != [] {
      hide Simulates, Prune, Step;
      var n := |calls| - 1;
      var before := if n == 0 then calls[n].at else calls[n - 1].at;
      Simulation(calls[..n], period, before);
      SimulationStep(Run(calls[..n], period, true), Run(calls[..n], period, false), period, before, calls[n]);
    } else {
      assert Run(calls, period, true) == map[];
    }
  }

  /** Every answer is the one that a limiter without pruning gives. */
  lemma PruningIsInvisible(calls: seq<Call>, limit: nat, period: int)
    requires calls != [] && Clock(calls, period)
    ensures Answer(calls, limit, period, true) == Answer(calls, limit, period, false)
  {
    var n := |calls| - 1;
    var before := if n == 0 then calls[n].at else calls[n - 1].at;
    Simulation(calls[..n], period, before);
    SimulationStep(Run(calls[..n], period, true), Run(calls[..n], period, false), period, before, calls[n]);
  }

  // ---------- keys do not share windows ----------

  /** The calls for one key. */
  function CallsOf(calls: seq<Call>, key: string): seq<Call> {
    if calls == [] then []
    else
      var c := calls[|calls| - 1];
      CallsOf(calls[..|calls| - 1], key) + (if c.key == key then [c] else [])
  }

  lemma {:induction false} CallsOfClock(calls: seq<Call>, period: int, key: string)
    requires Clock(calls, period)
    ensures Clock(CallsOf(calls, key), period)
    ensures forall c :: c in CallsOf(calls, key) ==> c in calls
  {
    if calls != [] {
      var n := |calls| - 1;
      var rest := CallsOf(calls[..n], key);
      CallsOfClock(calls[..n], period, key);
      assert forall i :: 0 <= i < |rest| ==> rest[i] in calls[..n];
    }
  }

  lemma {:induction false} WindowOfKey(calls: seq<Call>, period: int, key: string)
    ensures Lookup(Run(calls, period, false), key) == Lookup(Run(CallsOf(calls, key), period, false), key)
  {
    if calls != [] {
      var n := |calls| - 1;
      WindowOfKey(calls[..n], period, key);
      var own := CallsOf(calls[..n], key);
      if calls[n].key == key {
        assert (own + [calls[n]])[..|own|] == own;
      } else {
        assert CallsOf(calls, key) == own;
      }
    }
  }

  /** An answer is the one that a limiter gives that sees the calls for that key only. */
  lemma OtherKeysDoNotMatter(calls: seq<Call>, limit: nat, period: int)
    requires calls != [] && Clock(calls, period)
    ensures var own := CallsOf(calls, calls[|calls| - 1].key);
            && own != [] && own[|own| - 1] == calls[|calls| - 1]
            && Answer(calls, limit, period, true) == Answer(own, limit, period, true)
  {
    hide Clock;
    var key := calls[|calls| - 1].key;
    var own := CallsOf(calls, key);
    CallsOfClock(calls, period, key);
    PruningIsInvisible(calls, limit, period);
    PruningIsInvisible(own, limit, period);
    WindowOfKey(calls, period, key);
    RunHasLast(calls, period, false);
    RunHasLast(own, period, false);
  }

  // ---------- how many calls pass ----------

  /** Allowed calls for `key` in the interval from `from` to `to`. */
  function Passed(calls: seq<Call>, limit: nat, period: int, key: string, from: int, to: int): nat {
    if calls == [] then 0
    else
      var c := calls[|calls| - 1];
      Passed(calls[..|calls| - 1], limit, period, key, from, to)
      + if c.key == key && from <= c.at <= to && Answer(calls, limit, period, true) then 1 else 0
  }

  function MinNat(a: nat, b: nat): nat { if a < b then a else b }

  /** Calls passed so far, bounded by the window that the key is in. */
  ghost predicate WithinBudget(full: Windows, limit: nat, key: string, from: int, passed: nat) {
    if key !in full then passed == 0
    else
      var w := full[key];
      && w.count >= 1
      && (if w.start < from then passed < MinNat(w.count, limit) || passed == 0
          else passed <= (if limit == 0 then 0 else limit - 1) + MinNat(w.count, limit))
  }

  /** One more call, in terms of its window in the table without pruning. */
  lemma BudgetStep(before: Windows, limit: nat, period: int, key: string, from: int, passed: nat, c: Call)
    requires period >= 0 && period < c.at <= from + period && WithinBudget(before, limit, key, from, passed)
    requires (key in before ==> before[key].start <= c.at) && (c.at < from ==> passed == 0)
    ensures var after := Step(before, period, c);
            var answer := after[c.key].count <= limit;
            WithinBudget(after, limit, key, from, passed + if c.key == key && from <= c.at && answer then 1 else 0)
  {
  }

  lemma {:induction false} BudgetKept(calls: seq<Call>, limit: nat, period: int, key: string, from: int)
    requires Clock(calls, period) && (forall i :: 0 <= i < |calls| ==> calls[i].at <= from + period)
    ensures WithinBudget(Run(calls, period, false), limit, key, from,
                         Passed(calls, limit, period, key, from, from + period))
  {
    hide WithinBudget, Step, Prune;
    if calls == [] {
      NoBudget(limit, key, from);
    } else {
      var n := |calls| - 1;
      BudgetKept(calls[..n], limit, period, key, from);
      PruningIsInvisible(calls, limit, period);
      StartsBy(calls[..n], period, key, calls[n].at);
      if calls[n].at < from {
        NonePassed(calls[..n], limit, period, key, from, from + period);
      }
      BudgetStep(Run(calls[..n], period, false), limit, period, key, from,
                 Passed(calls[..n], limit, period, key, from, from + period), calls[n]);
      RunHasLast(calls, period, false);
    }
  }

  lemma NoBudget(limit: nat, key: string, from: int)
    ensures WithinBudget(map[], limit, key, from, 0)
  {
  }

  lemma {:induction false} NonePassed(calls: seq<Call>, limit: nat, period: int, key: string, from: int, to: int)
    requires forall i :: 0 <= i < |calls| ==> calls[i].at < from
    ensures Passed(calls, limit, period, key, from, to) == 0
  {
    if calls != [] {
      NonePassed(calls[..|calls| - 1], limit, period, key, from, to);
    }
  }

  /** No window starts after the last call. */
  lemma {:induction false} StartsBy(calls: seq<Call>, period: int, key: string, now: int)
    requires Clock(calls, period) && forall i :: 0 <= i < |calls| ==> calls[i].at <= now
    ensures key in Run(calls, period, false) ==> Run(calls, period, false)[key].start <= now
  {
    if calls != [] {
      StartsBy(calls[..|calls| - 1], period, key, now);
    }
  }

  /** In any interval no longer than the period, at most 2 * limit - 1 calls for one key pass. */
  lemma {:induction false} BurstBound(calls: seq<Call>, limit: nat, period: int, key: string, from: int, to: int)
    requires Clock(calls, period) && to <= from + period
    ensures Passed(calls, limit, period, key, from, to) <= if limit == 0 then 0 else 2 * limit - 1
  {
    if calls != [] && calls[|calls| - 1].at > from + period {
      BurstBound(calls[..|calls| - 1], limit, period, key, from, to);
    } else {
      LastIsLatest(calls, period, from + period);
      BudgetKept(calls, limit, period, key, from);
      PassedMonotone(calls, limit, period, key, from, to, from + period);
    }
  }

  lemma LastIsLatest(calls: seq<Call>, period: int, bound: int)
    requires Clock(calls, period) && (calls != [] ==> calls[|calls| - 1].at <= bound)
    ensures forall i :: 0 <= i < |calls| ==> calls[i].at <= bound
  {
  }

  lemma {:induction false} PassedMonotone(calls: seq<Call>, limit: nat, period: int, key: string, from: int, to: int,
                                          later: int)
    requires to <= later
    ensures Passed(calls, limit, period, key, from, to) <= Passed(calls, limit, period, key, from, later)
  {
    if calls != [] {
      PassedMonotone(calls[..|calls| - 1], limit, period, key, from, to, later);
    }
  }

  lemma OneMore(calls: seq<Call>, c: Call, before: Windows, limit: nat, period: int, from: int, to: int)
    requires Run(calls, period, true) == before && |before| <= PRUNE_ABOVE
    ensures Run(calls + [c], period, true) == before[c.key := Counted(before, period, c)]
    ensures Passed(calls + [c], limit, period, c.key, from, to)
         == Passed(calls, limit, period, c.key, from, to)
            + if from <= c.at <= to && Counted(before, period, c).count <= limit then 1 else 0
  {
    assert (calls + [c])[..|calls|] == calls;
  }

  /** One call, then `m` more at the end of its window. */
  function Late(period: int, key: string, m: nat): seq<Call> {
    if m == 0 then [Call(key, period + 1)] else Late(period, key, m - 1) + [Call(key, 2 * period + 1)]
  }

  /** A full window, then `m` calls in the next one. */
  function Burst(limit: nat, period: int, key: string, m: nat): seq<Call>
    requires limit >= 1
  {
    if m == 0 then Late(period, key, limit - 1) else Burst(limit, period, key, m - 1) + [Call(key, 2 * period + 2)]
  }

  /** A call at or after the last one keeps the clock. */
  lemma ClockSnoc(calls: seq<Call>, c: Call, period: int)
    requires Clock(calls, period) && calls != [] && calls[|calls| - 1].at <= c.at
    ensures Clock(calls + [c], period)
  {
  }

  lemma {:induction false} LateCalls(limit: nat, period: int, key: string, m: nat)
    requires limit >= 1 && period >= 1 && m < limit
    ensures var calls := Late(period, key, m);
            && Run(calls, period, true) == map[key := Window(period + 1, m + 1)]
            && Passed(calls, limit, period, key, 2 * period + 1, 2 * period + 2) == m
            && Clock(calls, period) && calls != [] && calls[|calls| - 1].at <= 2 * period + 1
  {
    hide Run, Passed;
    if m == 0 {
      Nothing(limit, period, key, 2 * period + 1, 2 * period + 2);
      OneMore([], Call(key, period + 1), map[], limit, period, 2 * period + 1, 2 * period + 2);
      assert [] + [Call(key, period + 1)] == [Call(key, period + 1)];
    } else {
      hide Clock;
      LateCalls(limit, period, key, m - 1);
      ClockSnoc(Late(period, key, m - 1), Call(key, 2 * period + 1), period);
      OneMore(Late(period, key, m - 1), Call(key, 2 * period + 1), map[key := Window(period + 1, m)], limit, period,
              2 * period + 1, 2 * period + 2);
    }
  }

  lemma {:induction false} BurstCalls(limit: nat, period: int, key: string, m: nat)
    requires limit >= 1 && period >= 1 && m <= limit
    ensures var calls := Burst(limit, period, key, m);
            && Run(calls, period, true) == map[key := if m == 0 then Window(period + 1, limit)
                                               else Window(2 * period + 2, m)]
            && Passed(calls, limit, period, key, 2 * period + 1, 2 * period + 2) == limit - 1 + m
            && Clock(calls, period) && calls != [] && calls[|calls| - 1].at <= 2 * period + 2
  {
    hide Run, Passed, Clock;
    if m == 0 {
      LateCalls(limit, period, key, limit - 1);
    } else {
      BurstCalls(limit, period, key, m - 1);
      ClockSnoc(Burst(limit, period, key, m - 1), Call(key, 2 * period + 2), period);
      var before := map[key := if m == 1 then Window(period + 1, limit) else Window(2 * period + 2, m - 1)];
      OneMore(Burst(limit, period, key, m - 1), Call(key, 2 * period + 2), before, limit, period, 2 * period + 1,
              2 * period + 2);
    }
  }

  /** The bound is reached, for every limit and period: a full window that ends just before a
      full one lets twice the limit minus one calls pass within one time unit. */
  lemma BurstReached(limit: nat, period: int, key: string)
    requires limit >= 1 && period >= 1
    ensures var calls := Burst(limit, period, key, limit);
            Clock(calls, period) && Passed(calls, limit, period, key, 2 * period + 1, 2 * period + 2) == 2 * limit - 1
  {
    BurstCalls(limit, period, key, limit);
  }

  lemma Nothing(limit: nat, period: int, key: string, from: int, to: int)
    ensures Run([], period, true) == map[] && Passed([], limit, period, key, from, to) == 0
  {
  }
}
