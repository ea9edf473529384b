/** The desktop client's view of the workspace: a fold of whatever events reach it, in any order. */
module Projection {
  import opened Protocol
  import opened KernelState
  import opened Events
  import opened Delivery
  import opened StableSort

  // A pending approval is joined with what the same effect's other events said.
  datatype EffectInfo = EffectInfo(tool: Option<ToolId>, impact: Option<Impact>)

  datatype PendingApproval = PendingApproval(
    runId: RunId, seqNo: nat, recordedAt: string, approvalId: ApprovalId, effectId: EffectId,
    risk: RiskLevel, impact: Option<Impact>, tool: Option<ToolId>, expiresAtMs: nat)

  datatype PendingClarification = PendingClarification(
    runId: RunId, seqNo: nat, recordedAt: string, questionId: QuestionId,
    options: seq<string>, promptRef: BlobRef)

  datatype ArtifactView = ArtifactView(
    runId: RunId, seqNo: nat, artifactId: ArtifactId, path: string, blob: BlobRef,
    supersedes: Option<ArtifactId>)

  datatype CheckpointView = CheckpointView(
    seqNo: nat, recordedAt: string, stateHash: StateHash, reason: CheckpointReason)

  datatype RunView = RunView(
    runId: RunId, status: RunStatus, lastSeq: nat, turn: nat, budget: Option<BudgetSpec>,
    budgetUsed: BudgetUsage, awaiting: Option<SuspendReason>, intentRef: Option<BlobRef>,
    events: seq<Event>, pendingApprovals: seq<PendingApproval>,
    pendingClarification: Option<PendingClarification>, artifacts: seq<ArtifactView>,
    costs: seq<nat>, checkpoints: seq<CheckpointView>, effects: map<EffectId, EffectInfo>,
    clockStartMs: Option<nat>)

  datatype InboxItem =
    | ClarificationItem(runId: RunId, clarification: PendingClarification)
    | ApprovalItem(runId: RunId, approval: PendingApproval)
    | BudgetItem(runId: RunId, seqNo: nat, recordedAt: string)

  datatype WorkspaceView = WorkspaceView(runs: seq<RunView>, inbox: seq<InboxItem>)

  const EMPTY_WORKSPACE := WorkspaceView([], [])

  function EmptyRun(r: RunId): RunView
  {
    RunView(r, Running, 0, 0, None, UNUSED, None, None, [], [], None, [], [], [], map[], None)
  }


  // ---------------------------------------------------------------- one run

  function EffectEntry(run: RunView, e: EffectId): EffectInfo
  {
    if e in run.effects then run.effects[e] else EffectInfo(None, None)
  }

  function Rejoin(items: seq<PendingApproval>, e: EffectId, info: EffectInfo): (r: seq<PendingApproval>)
    ensures |r| == |items|
    ensures forall i :: 0 <= i < |items| ==>
              r[i] == if items[i].effectId == e then items[i].(tool := info.tool, impact := info.impact)
                      else items[i]
  {
    seq(|items|, i requires 0 <= i < |items| =>
      if items[i].effectId == e then items[i].(tool := info.tool, impact := info.impact) else items[i])
  }

  function PatchEffect(run: RunView, e: EffectId, info: EffectInfo): RunView
  {
    run.(effects := run.effects[e := info], pendingApprovals := Rejoin(run.pendingApprovals, e, info))
  }

  function Without(items: seq<PendingApproval>, a: ApprovalId): (r: seq<PendingApproval>)
    ensures forall p :: p in r <==> p in items && p.approvalId != a
  {
    if items == [] then []
    else if items[0].approvalId != a then [items[0]] + Without(items[1..], a)
    else Without(items[1..], a)
  }

  /** What an event not seen before changes, apart from being recorded. */
  function ApplyBody(run: RunView, event: Event): RunView
  {
    match event.body
    case RunCreated(b) => run.(status := Running, budget := Some(b), awaiting := None)
    case IntentDeclared(i) => run.(intentRef := Some(i))
    case RunSuspended(reason) => run.(status := Suspended, awaiting := Some(reason))
    case RunResumed(_) => run.(status := Running, awaiting := None)
    case RunCompleted(_) => run.(status := Completed, awaiting := None)
    case RunFailed(_) => run.(status := Failed, awaiting := None)
    case EnvSampled(t, clock, _) =>
      var start := if run.clockStartMs.Some? then run.clockStartMs.value else clock;
      run.(turn := t, clockStartMs := Some(start),
           budgetUsed := run.budgetUsed.(
             wallMs := MaxNat(run.budgetUsed.wallMs, if start <= clock then clock - start else 0)))
    case ModelResponded(_, usage) =>
      run.(budgetUsed := run.budgetUsed.(tokens := run.budgetUsed.tokens + usage.input + usage.output))
    case ToolRequested(e, _, tool, _, _, _, _, _) =>
      PatchEffect(run, e, EffectEntry(run, e).(tool := Some(tool)))
    case ImpactEstimated(impact) =>
      PatchEffect(run, impact.effectId, EffectEntry(run, impact.effectId).(impact := Some(impact)))
    case ApprovalRequested(a, e, risk, expires) =>
      var joined := EffectEntry(run, e);
      run.(pendingApprovals := run.pendingApprovals
           + [PendingApproval(run.runId, event.seqNo, event.recordedAt, a, e, risk, joined.impact,
                              joined.tool, expires)])
    case ApprovalGranted(a) => run.(pendingApprovals := Without(run.pendingApprovals, a))
    case ApprovalDenied(a) => run.(pendingApprovals := Without(run.pendingApprovals, a))
    case ApprovalExpired(a) => run.(pendingApprovals := Without(run.pendingApprovals, a))
    case ClarificationRequested(q, prompt, options) =>
      run.(pendingClarification :=
           Some(PendingClarification(run.runId, event.seqNo, event.recordedAt, q, options, prompt)))
    case ClarificationAnswered(q, _, _) =>
      if run.pendingClarification.Some? && run.pendingClarification.value.questionId == q
      then run.(pendingClarification := None)
      else run
    case ArtifactEmitted(id, path, blob, supersedes) =>
      run.(artifacts := run.artifacts + [ArtifactView(run.runId, event.seqNo, id, path, blob, supersedes)])
    case CostCharged(amount) =>
      run.(costs := run.costs + [amount],
           budgetUsed := run.budgetUsed.(amountMicros := run.budgetUsed.amountMicros + amount))
    case BudgetAmended(b) => run.(budget := Some(b))
    case Checkpoint(hash, reason) =>
      run.(checkpoints := run.checkpoints + [CheckpointView(event.seqNo, event.recordedAt, hash, reason)])
    case _ => run
  }

  function SeqKey(e: Event): Key { Key(0.0, e.seqNo) }

  predicate Knows(run: RunView, seqNo: nat)
  {
    exists i :: 0 <= i < |run.events| && run.events[i].seqNo == seqNo
  }

  function ApplyToRun(run: RunView, event: Event): RunView
  {
    if Knows(run, event.seqNo) then run
    else
      ApplyBody(
        run.(events := Sort(run.events + [event], SeqKey), lastSeq := MaxNat(run.lastSeq, event.seqNo)),
        event)
  }

  // ---------------------------------------------------------------- the inbox

  function LastSuspension(events: seq<Event>): Option<Event>
  {
    if events == [] then None
    else if events[|events| - 1].body.RunSuspended? then Some(events[|events| - 1])
    else LastSuspension(events[..|events| - 1])
  }

  function BudgetItems(run: RunView): seq<InboxItem>
  {
    if run.status == Suspended && run.awaiting == Some(BudgetExhausted) then
      match LastSuspension(run.events)
      case Some(e) => [BudgetItem(run.runId, e.seqNo, e.recordedAt)]
      case None => [BudgetItem(run.runId, run.lastSeq, "")]
    else []
  }

  function ClarificationItems(run: RunView): seq<InboxItem>
  {
    if run.pendingClarification.Some? then [ClarificationItem(run.runId, run.pendingClarification.value)] else []
  }

  function ApprovalItems(run: RunView): (items: seq<InboxItem>)
    ensures |items| == |run.pendingApprovals|
    ensures forall i :: 0 <= i < |items| ==> items[i] == ApprovalItem(run.runId, run.pendingApprovals[i])
  {
    seq(|run.pendingApprovals|, i requires 0 <= i < |run.pendingApprovals| =>
      ApprovalItem(run.runId, run.pendingApprovals[i]))
  }

  function RunItems(run: RunView): seq<InboxItem>
  {
    ClarificationItems(run) + ApprovalItems(run) + BudgetItems(run)
  }

  function AllItems(runs: seq<RunView>): seq<InboxItem>
  {
    if runs == [] then [] else AllItems(runs[..|runs| - 1]) + RunItems(runs[|runs| - 1])
  }

  /** When the event that raised an item was recorded, and its place in its run. */
  function RaisedAt(item: InboxItem): string
  {
    match item
    case ClarificationItem(_, c) => c.recordedAt
    case ApprovalItem(_, a) => a.recordedAt
    case BudgetItem(_, _, at) => at
  }

  function RaisedSeq(item: InboxItem): nat
  {
    match item
    case ClarificationItem(_, c) => c.seqNo
    case ApprovalItem(_, a) => a.seqNo
    case BudgetItem(_, s, _) => s
  }

  /** Inbox order: by time, then by sequence number. `rank` is how the host orders time stamps. */
  function ItemKey(rank: string -> real): InboxItem -> Key
  {
    (item: InboxItem) =>
      match item
      case ClarificationItem(_, c) => Key(rank(c.recordedAt), c.seqNo)
      case ApprovalItem(_, a) => Key(rank(a.recordedAt), a.seqNo)
      case BudgetItem(_, s, at) => Key(rank(at), s)
  }

  function InboxOf(rank: string -> real, runs: seq<RunView>): seq<InboxItem>
  {
    Sort(AllItems(runs), ItemKey(rank))
  }

  method PushRunItems(items: seq<InboxItem>, run: RunView) returns (r: seq<InboxItem>)
    ensures r == items + RunItems(run)
  {
    hide LastSuspension, ApprovalItems;
    r := items;
    if run.pendingClarification.Some? {
      r := r + [ClarificationItem(run.runId, run.pendingClarification.value)];
    }
    ghost var before := r;
    for k := 0 to |run.pendingApprovals|
      invariant r == before + ApprovalItems(run)[..k]
    {
      assert ApprovalItems(run)[..k + 1] == ApprovalItems(run)[..k] + [ApprovalItems(run)[k]];
      r := r + [ApprovalItem(run.runId, run.pendingApprovals[k])];
    }
    assert r == items + ClarificationItems(run) + ApprovalItems(run);
    if run.status == Suspended && run.awaiting == Some(BudgetExhausted) {
      match LastSuspension(run.events) {
        case Some(e) => r := r + [BudgetItem(run.runId, e.seqNo, e.recordedAt)];
        case None => r := r + [BudgetItem(run.runId, run.lastSeq, "")];
      }
    }
  }

  method RebuildInbox(rank: string -> real, runs: seq<RunView>) returns (inbox: seq<InboxItem>)
    ensures inbox == InboxOf(rank, runs)
    ensures forall i, j :: 0 <= i < j < |inbox| ==>
      || rank(RaisedAt(inbox[i])) < rank(RaisedAt(inbox[j]))
      || (rank(RaisedAt(inbox[i])) == rank(RaisedAt(inbox[j])) && RaisedSeq(inbox[i]) <= RaisedSeq(inbox[j]))
    ensures multiset(inbox) == multiset(AllItems(runs))
    ensures forall item :: item in inbox <==> exists i :: 0 <= i < |runs| && item in RunItems(runs[i])
  {
    hide RunItems, Sort;
    var items: seq<InboxItem> := [];
    for n := 0 to |runs|
      invariant items == AllItems(runs[..n])
    {
      items := PushRunItems(items, runs[n]);
      assert runs[..n + 1][..n] == runs[..n];
    }
    assert runs[..|runs|] == runs;
    inbox := Sort(items, ItemKey(rank));
    SortIsCorrect(items, ItemKey(rank));
    forall item ensures item in items <==> exists i :: 0 <= i < |runs| && item in RunItems(runs[i]) {
      AllItemsAreRunItems(runs, item);
    }
    assert forall item :: item in inbox <==> item in multiset(inbox);
    assert forall item :: item in items <==> item in multiset(items);
  }

  lemma {:induction false} AllItemsAreRunItems(runs: seq<RunView>, item: InboxItem)
    ensures item in AllItems(runs) <==> exists i :: 0 <= i < |runs| && item in RunItems(runs[i])
  {
    hide RunItems;
    if runs != [] {
      var n := |runs| - 1;
      AllItemsAreRunItems(runs[..n], item);
      if i :| 0 <= i < n && item in RunItems(runs[i]) {
        assert runs[..n][i] == runs[i];
      }
    }
  }

  lemma InboxItemsAreRunItems(rank: string -> real, runs: seq<RunView>, item: InboxItem)
    ensures item in InboxOf(rank, runs) <==> exists i :: 0 <= i < |runs| && item in RunItems(runs[i])
  {
    hide RunItems, Sort, Sorted;
    SortIsCorrect(AllItems(runs), ItemKey(rank));
    AllItemsAreRunItems(runs, item);
    assert item in InboxOf(rank, runs) <==> item in multiset(InboxOf(rank, runs));
    assert item in AllItems(runs) <==> item in multiset(AllItems(runs));
  }

  // ---------------------------------------------------------------- the workspace

  /** The position of a run in the view, or the length if it is not there. */
  function IndexOf(runs: seq<RunView>, r: RunId): (i: nat)
    ensures i <= |runs|
    ensures i < |runs| ==> runs[i].runId == r
    ensures forall j :: 0 <= j < i ==> runs[j].runId != r
  {
    if runs == [] || runs[0].runId == r then 0 else 1 + IndexOf(runs[1..], r)
  }

  function RunOf(runs: seq<RunView>, r: RunId): RunView
  {
    var i := IndexOf(runs, r);
    if i < |runs| then runs[i] else EmptyRun(r)
  }

  function ApplyEvent(rank: string -> real, view: WorkspaceView, item: Item): WorkspaceView
  {
    var i := IndexOf(view.runs, item.run);
    var next := ApplyToRun(RunOf(view.runs, item.run), item.event);
    var runs := if i < |view.runs| then view.runs[i := next] else view.runs + [next];
    WorkspaceView(runs, InboxOf(rank, runs))
  }

  function ApplyEvents(rank: string -> real, view: WorkspaceView, items: seq<Item>): WorkspaceView
  {
    if items == [] then view
    else ApplyEvent(rank, ApplyEvents(rank, view, items[..|items| - 1]), items[|items| - 1])
  }

  /** One run folded from the beginning of its log. */
  function FoldRun(r: RunId, log: seq<Event>): (run: RunView)
    ensures run.runId == r
  {
    if log == [] then EmptyRun(r) else ApplyToRun(FoldRun(r, log[..|log| - 1]), log[|log| - 1])
  }

  // ---------------------------------------------------------------- redelivery is absorbed

  lemma ApplyBodyRecordsNothing(run: RunView, event: Event)
    ensures ApplyBody(run, event).events == run.events && ApplyBody(run, event).runId == run.runId
  {
    hide Without, Rejoin;
  }

  lemma {:induction false} FoldRunEvents(r: RunId, log: seq<Event>)
    requires Numbered(log)
    ensures FoldRun(r, log).events == log
  {
    if log != [] {
      hide ApplyBody, Sort;
      var init, last := log[..|log| - 1], log[|log| - 1];
      FoldRunEvents(r, init);
      assert init + [last] == log;
      SortedStays(log, SeqKey);
      var run := FoldRun(r, init);
      ApplyBodyRecordsNothing(run.(events := log, lastSeq := MaxNat(run.lastSeq, last.seqNo)), last);
    }
  }

  /** An event the run has seen changes nothing; the next one extends the fold. */
  lemma FoldRunStep(r: RunId, log: seq<Event>, d: nat, j: nat)
    requires Numbered(log) && j <= d <= |log| && j < |log|
    ensures ApplyToRun(FoldRun(r, log[..d]), log[j]) == FoldRun(r, log[..if j < d then d else d + 1])
  {
    FoldRunEvents(r, log[..d]);
    if j < d {
      assert FoldRun(r, log[..d]).events[j].seqNo == j;
    } else {
      assert log[..d + 1][..d] == log[..d];
    }
  }

  /** How much of a run's log has come through, however often. */
  function Delivered(items: seq<Item>, r: RunId): nat
  {
    if items == [] then 0
    else
      var last, before := items[|items| - 1], Delivered(items[..|items| - 1], r);
      if last.run == r then MaxNat(before, last.event.seqNo + 1) else before
  }

  predicate Faithful(logs: map<RunId, seq<Event>>, items: seq<Item>)
  {
    GapFree(items) && forall i :: 0 <= i < |items| ==> InLog(logs, items[i])
  }

  lemma FaithfulPrefix(logs: map<RunId, seq<Event>>, items: seq<Item>, n: nat)
    requires Faithful(logs, items) && n <= |items|
    ensures Faithful(logs, items[..n])
  {
    forall i | 0 <= i < n && items[i].event.seqNo > 0
      ensures Holds(items[..n][..i], items[i].run, items[i].event.seqNo - 1)
    {
      assert items[..n][..i] == items[..i];
    }
  }

  lemma HoldsSnoc(items: seq<Item>, r: RunId, j: nat)
    requires items != []
    ensures var n := |items| - 1;
            Holds(items, r, j) <==> Holds(items[..n], r, j) || (items[n].run == r && items[n].event.seqNo == j)
  {
    var n := |items| - 1;
    if Holds(items[..n], r, j) {
      var i :| 0 <= i < n && items[..n][i].run == r && items[..n][i].event.seqNo == j;
      assert items[i].run == r;
    }
    if Holds(items, r, j) {
      var i :| 0 <= i < |items| && items[i].run == r && items[i].event.seqNo == j;
      assert i < n ==> items[..n][i] == items[i];
    }
  }

  lemma {:induction false} DeliveredIsWhatCame(logs: map<RunId, seq<Event>>, items: seq<Item>, r: RunId)
    requires Faithful(logs, items)
    ensures Delivered(items, r) <= |LogOf(logs, r)|
    ensures forall j: nat :: Holds(items, r, j) <==> j < Delivered(items, r)
  {
    if items == [] {
    } else {
      hide Holds;
      var n := |items| - 1;
      var last := items[n];
      FaithfulPrefix(logs, items, n);
      DeliveredIsWhatCame(logs, items[..n], r);
      assert InLog(logs, last);
      assert last.event.seqNo > 0 ==> Holds(items[..n], last.run, last.event.seqNo - 1);
      forall j: nat ensures Holds(items, r, j) <==> j < Delivered(items, r) {
        HoldsSnoc(items, r, j);
      }
    }
  }

  /** No run is listed twice. */
  predicate DistinctRuns(runs: seq<RunView>)
  {
    forall i, j :: 0 <= i < j < |runs| ==> runs[i].runId != runs[j].runId
  }

  lemma ApplyEventFinds(rank: string -> real, view: WorkspaceView, item: Item, r: RunId)
    requires DistinctRuns(view.runs)
    ensures DistinctRuns(ApplyEvent(rank, view, item).runs)
    ensures RunOf(ApplyEvent(rank, view, item).runs, r)
         == if r == item.run then ApplyToRun(RunOf(view.runs, r), item.event) else RunOf(view.runs, r)
    ensures IndexOf(ApplyEvent(rank, view, item).runs, r) < |ApplyEvent(rank, view, item).runs|
       <==> IndexOf(view.runs, r) < |view.runs| || r == item.run
  {
    hide ApplyBody, InboxOf, Sort;
    ApplyToRunKeepsId(RunOf(view.runs, item.run), item.event);
    var runs, next := view.runs, ApplyEvent(rank, view, item).runs;
    var i, k := IndexOf(runs, item.run), IndexOf(runs, r);
    assert next[i].runId == item.run;
    assert forall j :: 0 <= j < |runs| && j != i ==> next[j] == runs[j];
    assert k < |runs| ==> next[k].runId == r;
    IndexIs(next, r, if r == item.run then i else if k < |runs| then k else |next|);
  }

  lemma IndexIs(runs: seq<RunView>, r: RunId, i: nat)
    requires i <= |runs| && (i < |runs| ==> runs[i].runId == r)
    requires forall j :: 0 <= j < i ==> runs[j].runId != r
    ensures IndexOf(runs, r) == i
  {
  }

  lemma ApplyToRunKeepsId(run: RunView, event: Event)
    ensures ApplyToRun(run, event).runId == run.runId
  {
    hide ApplyBody, Sort;
    ApplyBodyRecordsNothing(
      run.(events := Sort(run.events + [event], SeqKey), lastSeq := MaxNat(run.lastSeq, event.seqNo)), event);
  }

  /**
   * Whatever the number of reconnects and however the runs interleave, the view of each run is
   * the fold of as much of its log as has come through; no run is listed twice, a run is listed
   * exactly when something of it came; and the inbox is rebuilt from the runs.
   */
  lemma {:induction false} ViewIsTheFold(rank: string -> real, logs: map<RunId, seq<Event>>, items: seq<Item>, r: RunId)
    requires LogsCount(logs) && Faithful(logs, items)
    ensures
      var view := ApplyEvents(rank, EMPTY_WORKSPACE, items);
      && DistinctRuns(view.runs)
      && Delivered(items, r) <= |LogOf(logs, r)|
      && RunOf(view.runs, r) == FoldRun(r, LogOf(logs, r)[..Delivered(items, r)])
      && (IndexOf(view.runs, r) < |view.runs| <==> Delivered(items, r) > 0)
      && view.inbox == InboxOf(rank, view.runs)
  {
    hide InboxOf, Sort, ApplyToRun;
    DeliveredIsWhatCame(logs, items, r);
    if items == [] {
      EmptyInbox(rank);
    } else {
      var n := |items| - 1;
      var last := items[n];
      FaithfulPrefix(logs, items, n);
      ViewIsTheFold(rank, logs, items[..n], r);
      DeliveredIsWhatCame(logs, items[..n], r);
      ApplyEventFinds(rank, ApplyEvents(rank, EMPTY_WORKSPACE, items[..n]), last, r);
      if last.run == r {
        assert InLog(logs, last);
        assert last.event.seqNo > 0 ==> Holds(items[..n], r, last.event.seqNo - 1);
        FoldRunStep(r, LogOf(logs, r), Delivered(items[..n], r), last.event.seqNo);
      }
    }
  }

  lemma EmptyInbox(rank: string -> real)
    ensures InboxOf(rank, []) == []
  {
  }

  /** The client subscribed to every run: at any moment its view is the fold of log prefixes. */
  lemma SubscriberViewIsTheFold(rank: string -> real, start: System, actions: seq<Action>, r: RunId)
    requires Initial(start) && start.client.only.None?
    ensures
      var end := Exec(start, actions);
      var view := ApplyEvents(rank, EMPTY_WORKSPACE, end.client.seen);
      var log, d := LogOf(end.logs, r), Delivered(end.client.seen, r);
      && d <= |log| && RunOf(view.runs, r) == FoldRun(r, log[..d])
      && (IndexOf(view.runs, r) < |view.runs| <==> d > 0)
      && (forall i, j :: 0 <= i < j < |view.runs| ==> view.runs[i].runId != view.runs[j].runId)
  {
    hide GapFree, Holds, FoldRun, RunOf, ApplyEvents;
    var end := Exec(start, actions);
    InvariantHolds(start, actions);
    DeliveredGapFree(start, actions);
    ViewIsTheFold(rank, end.logs, end.client.seen, r);
  }

  /** And once nothing is on its way, of the whole logs. */
  lemma SubscriberViewIsComplete(rank: string -> real, start: System, actions: seq<Action>, r: RunId)
    requires Initial(start) && start.client.only.None? && Delivery.Quiet(Exec(start, actions))
    ensures
      var end := Exec(start, actions);
      var view := ApplyEvents(rank, EMPTY_WORKSPACE, end.client.seen);
      && RunOf(view.runs, r) == FoldRun(r, LogOf(end.logs, r))
      && (IndexOf(view.runs, r) < |view.runs| <==> LogOf(end.logs, r) != [])
      && (forall i, j :: 0 <= i < j < |view.runs| ==> view.runs[i].runId != view.runs[j].runId)
  {
    hide GapFree, Holds, FoldRun, RunOf, ApplyEvents, Delivery.Quiet, IsStretch;
    var end := Exec(start, actions);
    InvariantHolds(start, actions);
    DeliveredGapFree(start, actions);
    SubscriberViewIsTheFold(rank, start, actions, r);
    QuietHoldsAll(start, actions);
    ClientIsFixed(start, actions);
    DeliveredIsWhatCame(end.logs, end.client.seen, r);
    var log, d := LogOf(end.logs, r), Delivered(end.client.seen, r);
    assert |log| > 0 ==> Holds(end.client.seen, r, |log| - 1);
    assert log[..d] == log;
  }
}
