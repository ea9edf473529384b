/**
 * What a run has used: the kernel's meters, the client's meters and the cost query are the same
 * sums over the same log.
 */
module Accounting {
  import opened Protocol
  import opened KernelState
  import opened Events
  import opened Kernel
  import opened Delivery
  import opened Projection

  const U64_MAX: nat := 0xFFFF_FFFF_FFFF_FFFF

  function TokensOf(log: seq<Event>): nat
  {
    if log == [] then 0
    else
      var body := log[|log| - 1].body;
      TokensOf(log[..|log| - 1]) + if body.ModelResponded? then body.usage.input + body.usage.output else 0
  }

  /** The amounts charged, in order. */
  function ChargesOf(log: seq<Event>): seq<nat>
  {
    if log == [] then []
    else
      var body := log[|log| - 1].body;
      if body.CostCharged? then ChargesOf(log[..|log| - 1]) + [body.amountMicros] else ChargesOf(log[..|log| - 1])
  }

  function AmountOf(log: seq<Event>): nat
  {
    Sum(ChargesOf(log))
  }

  /** The clock readings, in order. */
  function SamplesOf(log: seq<Event>): seq<nat>
  {
    if log == [] then []
    else
      var body := log[|log| - 1].body;
      if body.EnvSampled? then SamplesOf(log[..|log| - 1]) + [body.wallClockMs] else SamplesOf(log[..|log| - 1])
  }

  /** `wall` is the longest distance of any reading from the first, never negative. */
  ghost predicate IsWallOf(wall: nat, samples: seq<nat>)
  {
    && (forall i :: 0 <= i < |samples| ==> samples[i] <= samples[0] + wall)
    && (samples == [] ==> wall == 0)
    && (samples != [] ==> exists i :: 0 <= i < |samples| && samples[i] == samples[0] + wall)
  }

  ghost predicate IsMetered(used: BudgetUsage, start: Option<nat>, log: seq<Event>)
  {
    && used.tokens == TokensOf(log)
    && used.amountMicros == AmountOf(log)
    && IsWallOf(used.wallMs, SamplesOf(log))
    && start == if SamplesOf(log) == [] then None else Some(SamplesOf(log)[0])
  }

  /** One more reading moves the meter as both folds move it. */
  lemma WallStep(wall: nat, samples: seq<nat>, clock: nat)
    requires IsWallOf(wall, samples)
    ensures var first := if samples == [] then clock else samples[0];
      IsWallOf(MaxNat(wall, SatSub(clock, first)), samples + [clock])
  {
    var first := if samples == [] then clock else samples[0];
    var more, now := samples + [clock], MaxNat(wall, SatSub(clock, first));
    if now == wall && samples != [] {
      var i :| 0 <= i < |samples| && samples[i] == samples[0] + wall;
      assert more[i] == more[0] + now;
    } else {
      assert more[|samples|] == first + now;
      assert more[0] == first;
    }
  }

  /** What one event adds to the meters. */
  lemma MeterStep(used: BudgetUsage, start: Option<nat>, log: seq<Event>, ev: Event,
                  next: BudgetUsage, nextStart: Option<nat>)
    requires IsMetered(used, start, log)
    requires
      match ev.body
      case EnvSampled(_, clock, _) =>
        var first := if start.Some? then start.value else clock;
        nextStart == Some(first) && next == used.(wallMs := MaxNat(used.wallMs, SatSub(clock, first)))
      case ModelResponded(_, usage) =>
        nextStart == start && next == used.(tokens := used.tokens + usage.input + usage.output)
      case CostCharged(amount) =>
        nextStart == start && next == used.(amountMicros := used.amountMicros + amount)
      case _ => nextStart == start && next == used
    ensures IsMetered(next, nextStart, log + [ev])
  {
    hide IsWallOf;
    assert (log + [ev])[..|log|] == log;
    match ev.body
    case EnvSampled(_, clock, _) => WallStep(used.wallMs, SamplesOf(log), clock);
    case CostCharged(amount) => SumSnoc(ChargesOf(log), amount);
    case _ =>
  }

  lemma KernelMeterStep(s: RunState, log: seq<Event>, ev: Event)
    requires IsMetered(s.budgetUsed, s.clockStartMs, log)
    ensures IsMetered(Reduce(s, ev).budgetUsed, Reduce(s, ev).clockStartMs, log + [ev])
  {
    hide IsMetered;
    MeterStep(s.budgetUsed, s.clockStartMs, log, ev, Reduce(s, ev).budgetUsed, Reduce(s, ev).clockStartMs);
  }

  lemma ClientMeterStep(run: RunView, log: seq<Event>, ev: Event)
    requires IsMetered(run.budgetUsed, run.clockStartMs, log)
    ensures IsMetered(ApplyBody(run, ev).budgetUsed, ApplyBody(run, ev).clockStartMs, log + [ev])
  {
    hide IsMetered, Without, Rejoin;
    var next := ApplyBody(run, ev);
    MeterStep(run.budgetUsed, run.clockStartMs, log, ev, next.budgetUsed, next.clockStartMs);
  }

  /** The kernel's meters are the log's sums, and its clock meter the longest distance from the
      first reading: a clock that runs backwards refunds nothing. */
  lemma {:induction false} KernelMetersAreExact(log: seq<Event>)
    ensures IsMetered(Fold(log).budgetUsed, Fold(log).clockStartMs, log)
    decreases |log|
  {
    if log == [] {
    } else {
      hide IsMetered, Reduce;
      var init, ev := log[..|log| - 1], log[|log| - 1];
      KernelMetersAreExact(init);
      assert init + [ev] == log;
      FoldAppend(NewState(), init, ev);
      KernelMeterStep(Fold(init), init, ev);
    }
  }

  /** One log event later, the client's run is the last one with the body applied. */
  lemma FoldRunSnoc(r: RunId, log: seq<Event>)
    requires Numbered(log) && log != []
    ensures var n := |log| - 1;
      var before := FoldRun(r, log[..n]);
      FoldRun(r, log) == ApplyBody(before.(events := log, lastSeq := MaxNat(before.lastSeq, n)), log[n])
  {
    hide ApplyBody, StableSort.Sort;
    var n := |log| - 1;
    FoldRunEvents(r, log[..n]);
    assert log[..n] + [log[n]] == log;
    StableSort.SortedStays(log, SeqKey);
  }

  lemma {:induction false} ClientMetersAreExact(r: RunId, log: seq<Event>)
    requires Numbered(log)
    ensures IsMetered(FoldRun(r, log).budgetUsed, FoldRun(r, log).clockStartMs, log)
    ensures FoldRun(r, log).costs == ChargesOf(log)
    decreases |log|
  {
    if log == [] {
    } else {
      hide IsMetered, ApplyBody, FoldRun;
      var n := |log| - 1;
      var before := FoldRun(r, log[..n]);
      ClientMetersAreExact(r, log[..n]);
      assert log[..n] + [log[n]] == log;
      FoldRunSnoc(r, log);
      var run := before.(events := log, lastSeq := MaxNat(before.lastSeq, n));
      ClientMeterStep(run, log[..n], log[n]);
      CostsStep(run, log[n]);
    }
  }

  lemma CostsStep(run: RunView, ev: Event)
    ensures ApplyBody(run, ev).costs == if ev.body.CostCharged? then run.costs + [ev.body.amountMicros] else run.costs
  {
    hide Without, Rejoin;
  }

  /** The wall meter is determined by the readings. */
  lemma WallIsUnique(a: nat, b: nat, samples: seq<nat>)
    requires IsWallOf(a, samples) && IsWallOf(b, samples)
    ensures a == b
  {
  }

  /** The client shows exactly the kernel's meters. */
  lemma ClientMetersAreTheKernels(r: RunId, log: seq<Event>)
    requires Numbered(log)
    ensures FoldRun(r, log).budgetUsed == Fold(log).budgetUsed
    ensures TotalCostMicros(FoldRun(r, log)) == Fold(log).budgetUsed.amountMicros
  {
    hide IsWallOf, FoldRun, Fold;
    KernelMetersAreExact(log);
    ClientMetersAreExact(r, log);
    WallIsUnique(FoldRun(r, log).budgetUsed.wallMs, Fold(log).budgetUsed.wallMs, SamplesOf(log));
  }

  lemma {:induction false} SamplesConcat(a: seq<Event>, b: seq<Event>)
    ensures SamplesOf(a + b) == SamplesOf(a) + SamplesOf(b)
    ensures ChargesOf(a + b) == ChargesOf(a) + ChargesOf(b)
    ensures TokensOf(a + b) == TokensOf(a) + TokensOf(b)
    decreases |b|
  {
    if b == [] {
      assert a + b == a;
    } else {
      var init, body := b[..|b| - 1], b[|b| - 1].body;
      SamplesConcat(a, init);
      assert (a + b)[..|a + b| - 1] == a + init && (a + b)[|a + b| - 1].body == body;
      if body.EnvSampled? {
        var now := [body.wallClockMs];
        assert SamplesOf(a) + (SamplesOf(init) + now) == SamplesOf(a) + SamplesOf(init) + now;
      } else if body.CostCharged? {
        var charge := [body.amountMicros];
        assert ChargesOf(a) + (ChargesOf(init) + charge) == ChargesOf(a) + ChargesOf(init) + charge;
      }
    }
  }

  /** Raising or lowering a limit is not a refund: with or without the amendment, wherever it
      stands, the run has used the same. */
  lemma AmendingRefundsNothing(a: seq<Event>, amendment: Event, b: seq<Event>)
    requires amendment.body.BudgetAmended?
    ensures Fold(a + [amendment] + b).budgetUsed == Fold(a + b).budgetUsed
  {
    hide Fold, IsWallOf;
    SamplesConcat(a, [amendment]);
    SamplesConcat(a + [amendment], b);
    SamplesConcat(a, b);
    assert TokensOf([amendment]) == 0 && ChargesOf([amendment]) == [] && SamplesOf([amendment]) == [];
    KernelMetersAreExact(a + [amendment] + b);
    KernelMetersAreExact(a + b);
    assert SamplesOf(a + [amendment] + b) == SamplesOf(a + b);
    assert ChargesOf(a + [amendment] + b) == ChargesOf(a + b);
    WallIsUnique(Fold(a + [amendment] + b).budgetUsed.wallMs, Fold(a + b).budgetUsed.wallMs, SamplesOf(a + b));
  }

  // ---------------------------------------------------------------- several runs

  function TotalCostMicros(run: RunView): nat
  {
    Sum(run.costs)
  }

  function WorkspaceCostMicros(runs: seq<RunView>): nat
  {
    if runs == [] then 0 else TotalCostMicros(runs[0]) + WorkspaceCostMicros(runs[1..])
  }

  function AmountOfAll(logs: map<RunId, seq<Event>>, runs: seq<RunId>): nat
  {
    if runs == [] then 0 else AmountOf(LogOf(logs, runs[0])) + AmountOfAll(logs, runs[1..])
  }

  function ChargeCount(logs: map<RunId, seq<Event>>, runs: seq<RunId>): nat
  {
    if runs == [] then 0 else |ChargesOf(LogOf(logs, runs[0]))| + ChargeCount(logs, runs[1..])
  }

  function Capped(n: nat): nat
  {
    if n <= U64_MAX then n else U64_MAX
  }

  /** The amount the daemon reports for some runs. */
  function ReportedAmount(logs: map<RunId, seq<Event>>, runs: seq<RunId>): nat
  {
    Capped(AmountOfAll(logs, runs))
  }

  lemma {:induction false} TotalsConcat(logs: map<RunId, seq<Event>>, a: seq<RunId>, b: seq<RunId>)
    ensures AmountOfAll(logs, a + b) == AmountOfAll(logs, a) + AmountOfAll(logs, b)
    ensures ChargeCount(logs, a + b) == ChargeCount(logs, a) + ChargeCount(logs, b)
  {
    if a == [] {
      assert a + b == b;
    } else {
      TotalsConcat(logs, a[1..], b);
      assert (a + b)[1..] == a[1..] + b;
    }
  }

  /** Add up one run's charges. */
  method AddCharges(log: seq<Event>, ghost before: nat, amount: nat, entries: nat)
    returns (amountMicros: nat, count: nat)
    requires amount == Capped(before)
    ensures amountMicros == Capped(before + AmountOf(log)) && count == entries + |ChargesOf(log)|
  {
    amountMicros, count := amount, entries;
    for k := 0 to |log|
      invariant amountMicros == Capped(before + AmountOf(log[..k]))
      invariant count == entries + |ChargesOf(log[..k])|
    {
      assert log[..k + 1][..k] == log[..k];
      if log[k].body.CostCharged? {
        SumSnoc(ChargesOf(log[..k]), log[k].body.amountMicros);
        amountMicros := Capped(amountMicros + log[k].body.amountMicros);
        count := count + 1;
      }
    }
    assert log[..|log|] == log;
  }

  /** The cost report: over one run, or over every run the store lists. The total stops at the
      largest number the field can hold. */
  method CostQuery(logs: map<RunId, seq<Event>>, runId: Option<RunId>, listed: seq<RunId>)
    returns (amountMicros: nat, entries: nat)
    ensures
      var runs := if runId.Some? then [runId.value] else listed;
      && amountMicros == ReportedAmount(logs, runs)
      && entries == ChargeCount(logs, runs)
  {
    var runs := if runId.Some? then [runId.value] else listed;
    amountMicros, entries := 0, 0;
    for n := 0 to |runs|
      invariant amountMicros == Capped(AmountOfAll(logs, runs[..n]))
      invariant entries == ChargeCount(logs, runs[..n])
    {
      amountMicros, entries := AddCharges(
        LogOf(logs, runs[n]), AmountOfAll(logs, runs[..n]), amountMicros, entries);
      TotalsConcat(logs, runs[..n], [runs[n]]);
      assert runs[..n + 1] == runs[..n] + [runs[n]];
    }
    assert runs[..|runs|] == runs;
  }

  lemma TotalWithout(logs: map<RunId, seq<Event>>, runs: seq<RunId>, i: nat)
    requires i < |runs|
    ensures AmountOfAll(logs, runs) == AmountOf(LogOf(logs, runs[i])) + AmountOfAll(logs, runs[..i] + runs[i + 1..])
  {
    TotalsConcat(logs, runs[..i], runs[i..]);
    TotalsConcat(logs, runs[..i], runs[i + 1..]);
    assert runs == runs[..i] + runs[i..] && runs[i..][1..] == runs[i + 1..];
  }

  lemma EmptyHasNone(runs: seq<RunId>)
    ensures runs != [] ==> exists r :: r in runs
  {
    if runs != [] {
      assert runs[0] in runs;
    }
  }

  lemma WithoutOne(runs: seq<RunId>, i: nat, r: RunId)
    requires i < |runs| && NoDuplicates(runs)
    ensures NoDuplicates(runs[..i] + runs[i + 1..])
    ensures r in runs[..i] + runs[i + 1..] <==> r in runs && r != runs[i]
  {
    var rest := runs[..i] + runs[i + 1..];
    assert forall k :: 0 <= k < |rest| ==> rest[k] == if k < i then runs[k] else runs[k + 1];
    if r in runs && r != runs[i] {
      var k :| 0 <= k < |runs| && runs[k] == r;
      assert rest[if k < i then k else k - 1] == r;
    }
  }

  /** The total does not depend on the order in which the runs are listed. */
  lemma {:induction false} TotalIsOrderBlind(logs: map<RunId, seq<Event>>, a: seq<RunId>, b: seq<RunId>)
    requires NoDuplicates(a) && NoDuplicates(b) && forall r :: r in a <==> r in b
    ensures AmountOfAll(logs, a) == AmountOfAll(logs, b)
    decreases |a|
  {
    if a == [] {
      EmptyHasNone(b);
    } else {
      assert a[0] in b;
      var i: nat :| i < |b| && b[i] == a[0];
      var rest := b[..i] + b[i + 1..];
      TotalWithout(logs, b, i);
      forall r ensures r in a[1..] <==> r in rest {
        WithoutOne(a, 0, r);
        WithoutOne(b, i, r);
        assert a[..0] + a[1..] == a[1..];
      }
      TotalIsOrderBlind(logs, a[1..], rest);
    }
  }

  function IdsOf(runs: seq<RunView>): (ids: seq<RunId>)
    ensures |ids| == |runs| && forall i :: 0 <= i < |ids| ==> ids[i] == runs[i].runId
  {
    seq(|runs|, i requires 0 <= i < |runs| => runs[i].runId)
  }

  lemma {:induction false} WorkspaceCostIsTotal(logs: map<RunId, seq<Event>>, runs: seq<RunView>)
    requires LogsCount(logs)
    requires forall i :: 0 <= i < |runs| ==> runs[i] == FoldRun(runs[i].runId, LogOf(logs, runs[i].runId))
    ensures WorkspaceCostMicros(runs) == AmountOfAll(logs, IdsOf(runs))
  {
    hide FoldRun;
    if runs != [] {
      var r := runs[0].runId;
      ClientMetersAreExact(r, LogOf(logs, r));
      WorkspaceCostIsTotal(logs, runs[1..]);
      assert IdsOf(runs)[1..] == IdsOf(runs[1..]);
    }
  }

  lemma IdsAreIndexed(runs: seq<RunView>, r: RunId)
    requires DistinctRuns(runs)
    ensures r in IdsOf(runs) <==> IndexOf(runs, r) < |runs|
  {
    if r in IdsOf(runs) {
      var i :| 0 <= i < |runs| && IdsOf(runs)[i] == r;
      IndexIs(runs, r, i);
    }
    if IndexOf(runs, r) < |runs| {
      assert IdsOf(runs)[IndexOf(runs, r)] == r;
    }
  }

  /** Once the client has caught up, the daemon's report over the runs it lists, in whatever order, is the
      cost the client shows for the workspace, cut off at the largest 64-bit number: the same, unless
      the client shows more than that. */
  lemma WorkspaceCostIsTheDaemons(
      rank: string -> real, start: System, actions: seq<Action>, listed: seq<RunId>)
    requires Initial(start) && start.client.only.None? && Quiet(Exec(start, actions))
    requires NoDuplicates(listed)
    requires forall r :: r in listed <==> LogOf(Exec(start, actions).logs, r) != []
    ensures
      var end := Exec(start, actions);
      var shown := WorkspaceCostMicros(ApplyEvents(rank, EMPTY_WORKSPACE, end.client.seen).runs);
      && ReportedAmount(end.logs, listed)
         == (if shown <= 18_446_744_073_709_551_615 then shown else 18_446_744_073_709_551_615)
      && (ReportedAmount(end.logs, listed) == shown <==> shown <= 18_446_744_073_709_551_615)
  {
    hide GapFree, Holds, FoldRun, ApplyEvents, IsStretch, Quiet;
    var end := Exec(start, actions);
    var runs := ApplyEvents(rank, EMPTY_WORKSPACE, end.client.seen).runs;
    InvariantHolds(start, actions);
    DeliveredGapFree(start, actions);
    forall r
      ensures DistinctRuns(runs) && RunOf(runs, r) == FoldRun(r, LogOf(end.logs, r))
      ensures IndexOf(runs, r) < |runs| <==> LogOf(end.logs, r) != []
    {
      SubscriberViewIsComplete(rank, start, actions, r);
    }
    assert DistinctRuns(runs) by {
      assert RunOf(runs, RunId("")) == FoldRun(RunId(""), LogOf(end.logs, RunId("")));
    }
    forall i | 0 <= i < |runs| ensures runs[i] == FoldRun(runs[i].runId, LogOf(end.logs, runs[i].runId)) {
      assert IndexOf(runs, runs[i].runId) == i by { IndexIs(runs, runs[i].runId, i); }
      assert RunOf(runs, runs[i].runId) == runs[i];
    }
    WorkspaceCostIsTotal(end.logs, runs);
    forall r ensures r in IdsOf(runs) <==> r in listed {
      IdsAreIndexed(runs, r);
    }
    TotalIsOrderBlind(end.logs, IdsOf(runs), listed);
  }
}
