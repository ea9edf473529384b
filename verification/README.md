# EvoWork runtime: a verified model

EvoWork runs agents from an append-only log. A pure kernel folds a run's log into a state and
names the next commands; a gateway judges every effect an agent wants to have; a runtime, the
only writer, carries the commands out by appending events; a daemon streams the events to
clients, which fold them into a workspace view; a scheduler starts runs from a calendar. This
project models those parts in Dafny and proves what they promise. `dafny verify dfyconfig.toml`
checks all of it.

The modules, bottom up:

- `Protocol`, `KernelState`, `Events`: the values, the kernel's state, and what an event can say
  (`crates/evo-protocol`, `crates/evo-kernel/src/state.rs`).
- `Kernel`: `Reduce`, `Fold` and `Decide`, branch by branch as in `crates/evo-kernel/src/reduce.rs`
  and `decide.rs`.
- `Context`: the blocks a model is shown in a turn, and the trust each gets from its source.
- `WriteProtocol`: which event may follow which log (`MayAppend`, `Lawful`), and the invariant of
  the kernel's ledgers over every lawful log. The runtime is proved to write only lawful events,
  also when a call stops half way, so every theorem about lawful logs is a theorem about every
  crash point of every run.
- `EffectSafety`, `Spending`: at-most-once, admitted-only, never-after-denial, taint, and bounded
  overspend, over whole runs.
- `TurnOrder`: what the kernel's markers mean in the log, and that stages come in order and every act
  follows a current plan.
- `TaintGate`: what a tool hands back is shown to every later model, taints the run, and from then on
  holds every effect but a read for a human; nothing else taints a run.
- `Policy`, `Admission`, `GateMeaning`: first-match rules and the admission pipeline, with
  monotonicity and preview equivalence, and what is recorded and decided read off the manifests, the
  policy's answer and the limits alone.
- `RunLog`, `Replay`: the log with its disposable snapshots, replay and verification.
- `Anchors`: the checkpoint that stands directly before every act and every judgement.
- `Traces`, `Outcomes`: what each operation leaves in the log, and what that does to the run.
- `Provenance`, `Runtime`: the runtime class with every operation proved against those, down to
  `Drive`, whose whole trace is a sequence of the kernel's own choices; its log carries the gateway's
  word about every tool and its own content for every answer.
- `LogMeaning`: effects, approvals, question and the kernel's next wish, read off the log.
- `Delivery`: writer, broadcast, server session and reconnecting client as one state machine.
- `StableSort`, `Projection`, `Agreement`, `Disagreement`, `ClientRecords`, `Accounting`: the client's
  fold, where it agrees with the kernel and the log and where it does not, and the meters and totals
  both sides compute.
- `Calendar`, `Triggers`, `Scheduler`: day numbers and dates, the next firing time, the sweeps. The
  leap-year rule is the Gregorian one (Appendix C of RFC 3339).
- `LineDiff`, `Closure`: two algorithms that stand alone.
- `WorkspacePath`, `PathMeaning`: the resolver of paths that effects name, and exactly when the place
  it hands out is the place the system goes to.

What the world answers is arbitrary. The model's reply, the executor's outcome, the price table,
the clock, stored blobs and the policy are parameters or undetermined values; every append and
every other input or output may fail, and a failed call ends the operation exactly as a killed
process would: the log stays what it is.

Conventions of the model:

- An effect, an approval, a question and an artifact are named in the source after the sequence
  number of the last event before them (`crates/evo-daemon/src/runtime.rs:1396`). Within one run
  that number stands for the name. Its freshness is proved, not assumed. Where the source orders ids
  it orders their text, in which `…-a10` comes before `…-a9`; it does so only among pending approvals
  and open effects, and a lawful log never has two of either.
- The state hash is a constructor, hence injective: the claims about snapshots and verification
  hold for a collision-free hash.
- Numbers are unbounded. Where the source saturates (`cost.query`) the cap is modelled; where it
  adds without a check, overflow near 2^64 is outside the model. The client's numbers are doubles in
  the source, exact up to 2^53; what rounding does to greater ones is outside the model too.
- Where the reducer would panic (a suspension for a question when none is pending) `Reduce` is
  total, and `EffectSafety.SuspensionHasItsReason` shows the case never arises. The panic on a
  missing intent is the error `MissingIntent`: `Runtime.Runtime.Start` never meets it; a resume of
  a run killed before `intent.declared` can.

Results where the code does less than one might expect, proved as such:

- Client and kernel disagree on the status of a run exactly when it completed as a failure
  (`Agreement.ClientAgreesWithKernel`), and a start under any gateway can leave such a run
  (`Disagreement.HollowRunShowsBoth`).
- They agree on what a run waits for exactly while it is suspended or the kernel waits for nothing
  (`Agreement.ReasonAgreesExactly`): failing does not end the wait for the kernel, and does for the
  client (`Disagreement.FailureKeepsTheWait`). At the turn limit driving writes such a failure.
- Snapshot self-validation trusts the hash column. With honest columns no blob can mislead replay
  (`Replay.SnapshotsOnlyAccelerate`). With any columns, replay to every target is true if and only if
  every row decodes and the state of every row that passes its own check leads on as the log does
  (`Replay.ReplayIsTrueExactly`); for a row at a checkpoint that is: its state differs from the folded
  one in position and checkpoint mark at most (`Replay.ForgedRowIsHarmlessExactly`). The condition can
  fail on a lawful log that verifies (`Replay.ForgedHashIsBelieved`).
- The resolver tidies `.` and `..` away on the text of a path; the system goes up from where links
  have led it, and only from a directory. For every path the lexical stage lets pass, whether the
  system resolves it or not, the two agree at every step along it if and only if every component
  keeps them in step (`PathMeaning.ResolverAgreesExactly`): a `.` stands in a directory; a `..` stands
  in one too and leads back to where the name it cancels was looked up, or to nowhere if that name was
  out of reach; and a name the system gives up at stays out of reach with the links of cancelled names
  to spare. They part ways at the first component that does not (`PathMeaning.FirstMisstep`). On a path
  the system resolves only a `..` can fail (`PathMeaning.OnlyDotsStray`), without a `..` only a `.` can
  and links do no harm (`PathMeaning.WithoutDotsInStep`). Each way to fail has its instance: `d/..`
  through a link (`PathMeaning.StrayDotsInstance`), and `f/..`, `f/.`, `m/../f` and `d/../e`, which the
  system refuses and the resolver hands out (`PathMeaning.RefusedInstances`). What it hands out is
  inside the workspace all the same (`WorkspacePath.ResolvedIsSafe`).
- The token estimate is meant to count English text by fours (`crates/evo-context/src/lib.rs:222-230`);
  it is the number of characters for every text (`Context.EstimateIsTheLength`).
- A failed run is reported without a reason exactly when its budget is amended while it does not wait
  for money: the last event is then the amendment (`Runtime.Runtime.AmendBudget`). Driving and resuming
  always have a reason to report (`Runtime.DrivenFailuresAreExplained`).
- A decision that arrives after an approval's deadline is not recorded; the expiry is
  (`Runtime.Runtime.DecideApproval`).
- A resume while an approval is pending and not overdue writes nothing, whatever the status
  (`Runtime.Runtime.Resume`); any other resume writes `run.resumed`, also to a finished run.

## Model

| member | source | states |
|---|---|---|
| Kernel.FirstPendingApproval | crates/evo-kernel/src/reduce.rs:161-190 | A suspension for approval points at the least pending approval and its effect, and at nothing exactly when none is pending |
| Kernel.FoldSplit | crates/evo-kernel/src/reduce.rs:312-316 | Folding a log in two stretches is folding it in one |
| Kernel.DecideGates | crates/evo-kernel/src/decide.rs:64-159 | New work only for a running run within budget with no effect open; over budget the only work is to suspend; an effect or question is asked for only from the plan of this very turn |
| Kernel.DecideSilence | crates/evo-kernel/src/decide.rs:64-111 | The kernel falls silent exactly when the run stands still, or an affordable run with no checkpoint due waits for an effect |
| Context.EstimateIsTheLength | crates/evo-context/src/lib.rs:222-230 | The estimate is the number of characters, for every text |
| Context.AssembledShowsAll | crates/evo-context/src/lib.rs:135-230 | What is assembled of a log is the intent, then every answer as the content put together for it, then every content handed back with its tool; each block is cited by the beginning of its own hash, counts its own characters, and the whole is tainted exactly when a tool handed something back |
| Context.TokensAddUp | crates/evo-context/src/lib.rs:135-160 | The estimate of a context is the sum over its blocks |
| Context.OneTaintsAll | crates/evo-context/src/lib.rs:78-160 | One block that is not to be trusted taints the whole context, and nothing else does |
| WriteProtocol.LawfulPrefix | crates/evo-daemon/src/runtime.rs:303-318 | A log cut after any append is still one the runtime could have written, and its next event obeyed the protocol |
| WriteProtocol.StageStep | crates/evo-kernel/src/reduce.rs:23-310 | Stage markers never run ahead of the turn, a context needs an intent and a planned turn its context, over every lawful event |
| WriteProtocol.StatusStep | crates/evo-kernel/src/reduce.rs:152-222 | A running or completed run awaits nothing and a suspended one awaits something, kept by every lawful event |
| WriteProtocol.EffectStep | crates/evo-kernel/src/reduce.rs:91-132 | At most one effect is open, none past the turn limit, and each pending approval points at an effect still requested, kept by every lawful event |
| WriteProtocol.TrailStep | crates/evo-kernel/src/reduce.rs:224-266 | Every effect in the ledger was requested, every pending approval asked for, every approved effect granted, kept by every lawful event |
| WriteProtocol.LedgerHolds | crates/evo-kernel/src/reduce.rs:23-310 | The whole ledger invariant for every lawful log, hence at every crash point |
| EffectSafety.ProgressNeverFalls | crates/evo-kernel/src/reduce.rs:91-132 | An effect never goes back: requested, approved, dispatched, closed |
| EffectSafety.AtMostOneDispatch | crates/evo-daemon/src/runtime.rs:1606-1708 | Each effect is dispatched at most once, over start, resumes, decisions, answers, amendments and crashes |
| EffectSafety.DispatchWasAdmitted | crates/evo-daemon/src/runtime.rs:1390-1427 | A dispatch follows its own request, and a policy allow for it or a grant of an approval asked for it |
| EffectSafety.GrantWasRequired | crates/evo-gateway/src/pipeline.rs:464-536 | An approval is asked for only when the recorded verdict was to ask a human |
| EffectSafety.DeniedNeverRuns | crates/evo-daemon/src/runtime.rs:1455-1498 | An effect refused by policy, gateway, human or expiry is never dispatched, before or after |
| EffectSafety.TaintIsExact | crates/evo-kernel/src/reduce.rs:76-76 | The folded taint is "some event so far carried taint", both ways |
| EffectSafety.TaintedNeedsApproval | crates/evo-gateway/src/pipeline.rs:312-348 | Once any event carried taint, an effect requested later that is more than a read runs only after a human granted its own approval, for every policy |
| EffectSafety.CitesAreExact | crates/evo-kernel/src/reduce.rs:68-82 | The citations of a run are exactly those some event brought |
| EffectSafety.SuspensionHasItsReason | crates/evo-kernel/src/reduce.rs:161-218 | The reducer never meets a question-suspension without a question, and every suspension leaves a reason |
| EffectSafety.LawfulRunsAreSafe | crates/evo-daemon/src/runtime.rs:303-318 | At-most-once, admitted-only, never-after-denial and taint safety together, for every lawful log |
| TurnOrder.SampleMarkerIsExact | crates/evo-kernel/src/reduce.rs:44-66 | The turn is marked as sampled exactly when the last sampling in the log is of that turn |
| TurnOrder.ContextMarkerIsExact | crates/evo-kernel/src/reduce.rs:68-82 | The turn is marked as assembled exactly when its context is the last one and no answer came since |
| TurnOrder.PlanMarkerIsExact | crates/evo-kernel/src/reduce.rs:86-90 | The turn is marked as planned exactly when its plan is the last one and no answer came since |
| TurnOrder.StagesComeInOrder | crates/evo-kernel/src/decide.rs:112-128 | In every run a model is asked only after the context of that turn was assembled with every answer so far, and that only after the turn was sampled |
| TurnOrder.EffectsFollowThePlan | crates/evo-kernel/src/decide.rs:130-140 | In every run each effect requested is the call of the last plan of its turn, made after every answer so far |
| TurnOrder.QuestionsFollowThePlan | crates/evo-kernel/src/decide.rs:141-150 | So is each question put to a human |
| TurnOrder.CompletionFollowsThePlan | crates/evo-kernel/src/decide.rs:130-158 | A run completes well exactly on a plan that says it is finished, and as a failure exactly on a plan that lacks the call or question it announces |
| TurnOrder.AwaitingIsExact | crates/evo-kernel/src/reduce.rs:161-222 | In every run something is awaited exactly when it was suspended and not resumed since |
| TurnOrder.CheckpointMarkIsExact | crates/evo-kernel/src/reduce.rs:149-151 | The checkpoint mark is the last checkpoint of the log |
| TurnOrder.CheckpointsArePeriodic | crates/evo-kernel/src/decide.rs:69-74 | The kernel's first choice is a periodic checkpoint exactly when 50 events went by without one |
| TurnOrder.ClockIsLastReading | crates/evo-kernel/src/reduce.rs:44-46 | The clock that deadlines count from is the last reading in the log |
| TaintGate.OutputsAreExact | crates/evo-daemon/src/runtime.rs:1037-1067 | What is collected for a context is exactly what tools handed back, each with the tool it was asked of |
| TaintGate.ContextsAreComplete | crates/evo-daemon/src/runtime.rs:1114-1169 | In every run a context shows exactly the contents handed back by then and one block for each answer, and is tainted exactly when a tool had handed anything back |
| TaintGate.ModelsSeeEverything | crates/evo-daemon/src/runtime.rs:1122-1160 | A context of the same turn stands before every model request and shows, in order, every answer and every content handed back up to that request |
| TaintGate.ModelsSeeEveryAnswer | crates/evo-daemon/src/runtime.rs:1114-1169 | In a runtime's own log block 1 + k of that context is the content put together for the k-th answer of the log, for every answer up to the request |
| TaintGate.AnswersAreExact | crates/evo-daemon/src/runtime.rs:957-1009 | The k-th answer collected is the k-th answer event of the log, with its option and free text, and the text of the very question it answers |
| TaintGate.ContextInBetween | crates/evo-kernel/src/decide.rs:112-128 | Between a tool's result and the next effect requested a context is assembled |
| TaintGate.ReturnedContentGatesEffects | crates/evo-context/src/lib.rs:56-84 | Once a tool has handed back anything, every effect requested later that is more than a read runs only with a human's grant of its own approval, whatever tool, content, model and policy |
| TaintGate.ReturnedContentGatesTools | crates/evo-gateway/src/pipeline.rs:312-348 | Once a tool has handed something back, a later call of a tool whose manifest does not say that it only reads, or that has none, is dispatched only after a human granted its own approval |
| TaintGate.TaintComesFromTools | crates/evo-context/src/lib.rs:56-84 | A run is tainted exactly when a tool's result was marked so or a context followed a returned content; nothing else taints it |
| Spending.SpendHolds | crates/evo-kernel/src/decide.rs:41-61 | While a bill is open the run was under its highest limit before it; while an effect is open it still is |
| Spending.OverspendIsBounded | crates/evo-kernel/src/decide.rs:98-103 | However the amount limit is raised and lowered, every prefix of every run has spent nothing or less than the highest limit plus one bill |
| Spending.BillIsTheTail | crates/evo-daemon/src/runtime.rs:1310-1318 | A bill is what was charged since the last event that is neither a charge nor an artifact |
| Policy.FirstMatchWins | crates/evo-policy/src/hardcoded.rs:96-116 | The verdict and trace are those of the least matching rule; no match means allow |
| Policy.FirstFittingRuleDecides | crates/evo-policy/src/hardcoded.rs:30-116 | Field by field: the least rule whose stated class, tool and reversibility are the call's decides, an absent field asking nothing |
| Policy.UntracedExactly | crates/evo-policy/src/hardcoded.rs:30-116 | A call is allowed without a trace exactly when every rule states a class, a tool or a reversibility that is not the call's |
| Policy.VerdictIsDeliberate | crates/evo-policy/src/hardcoded.rs:49-116 | A call is allowed exactly when no rule speaks of it or the first that does says so, and put to a human exactly when that rule says so; a decision that cannot be read denies |
| Policy.RulesIgnoreTaint | crates/evo-policy/src/hardcoded.rs:30-47 | Rules do not look at taint |
| Admission.StrengthOfAdmission | crates/evo-gateway/src/pipeline.rs:240-536 | How strongly a call is held back, read off its gates in the order capability, verdict, budget, approval |
| Admission.BudgetGateIsExact | crates/evo-gateway/src/pipeline.rs:201-226 | The gate lets pass exactly what stays within every limit after the estimate is paid, and otherwise gives one of four reasons that names a dimension really exhausted |
| Admission.EstimateIsHonest | crates/evo-gateway/src/impact.rs:40-80 | Exact only with a preview's answer, declared only with targets the parameters really name, unknown otherwise; a cost only from a preview |
| Admission.HarsherNeverLoosens | crates/evo-gateway/src/pipeline.rs:166-226 | More taint, more usage, a dearer estimate or lower limits never free a call that was held back, nor lower its risk level |
| Admission.StructuralGatesHold | crates/evo-gateway/src/pipeline.rs:240-420 | For any policy, read off the manifests: a denial stays a denial, a tool without a manifest asks for at least L3, a tool whose manifest says more than a read for at least L2 under taint |
| GateMeaning.ToolIsRecorded | crates/evo-gateway/src/pipeline.rs:240-310 | The first entry of every admission is the call with the class, reversibility, egress and resolved targets of its tool's manifest; external, irreversible and without targets if there is none |
| GateMeaning.RequestIsTheRecord | crates/evo-gateway/src/pipeline.rs:240-536 | The request handed on, at once or after a preview, to be dispatched, put to a human or stopped, is the one recorded, under the taint and capability of the call |
| GateMeaning.TargetsInOrder | crates/evo-gateway/src/pipeline.rs:249-254 | Targets are those of the declarations, one after the other |
| GateMeaning.OneTarget | crates/evo-gateway/src/manifest.rs:40-64 | A declaration names its literal, or the parameter it points at if the call has it, or nothing |
| GateMeaning.OutOfScopeIsRefused | crates/evo-gateway/src/pipeline.rs:294-309 | Without a scope for the tool or for everything a call is denied and recorded as such |
| GateMeaning.JudgementIsExact | crates/evo-gateway/src/pipeline.rs:300-420 | Within its scopes: a policy's denial stands with its reason; without a manifest, and tainted doing more than reading, the call goes to a human; else the policy's word stands; each with its trace, and a preview is asked for exactly where the manifest declares one and the call is not denied |
| GateMeaning.ImpactIsExact | crates/evo-gateway/src/impact.rs:40-80 | The estimate is the preview's own answer, or the resolved targets of the manifest, with the manifest's egress |
| GateMeaning.OutcomeIsExact | crates/evo-gateway/src/pipeline.rs:464-536 | Of what was not refused: a stop for money, else a question to a human if held, else in a dry run a record only for writes and external effects, else dispatch |
| GateMeaning.RiskIsExact | crates/evo-gateway/src/pipeline.rs:312-420 | The risk put to the human: the highest without a manifest, the middle one under taint unless the policy asked for the highest, else what the policy asked for |
| Admission.PreviewIsNotJudged | crates/evo-gateway/src/pipeline.rs:380-420 | Declaring a preview does not change how a call is judged |
| Admission.AbandonedPreviewChangesNothing | crates/evo-gateway/src/pipeline.rs:427-462 | Asking for a preview and getting none gives the same events and action as not declaring one |
| Admission.AdmissionShape | crates/evo-gateway/src/pipeline.rs:240-420 | A live admission writes request, verdict and at most one estimate, in that order, and its action agrees with the verdict |
| Admission.EffectGateCoversTurnGate | crates/evo-gateway/src/pipeline.rs:201-226 | The gate that stops an effect is at least the one that stops a turn, and equal to it when no cost is estimated |
| RunLog.LatestKeyIsGreatest | crates/evo-runlog/src/snapshot.rs:34-55 | The snapshot found is the greatest not beyond the target |
| RunLog.StretchIsTheRange | crates/evo-runlog/src/store.rs:115-148 | A stretch of a log is its entries from the first to the last number asked for, as far as they exist |
| RunLog.RunLog.LastSeq | crates/evo-runlog/src/store.rs:37-48 | The greatest sequence number, none for an empty log |
| RunLog.RunLog.Append | crates/evo-runlog/src/store.rs:65-113 | The next sequence number without a gap and exactly this event, or nothing at all |
| RunLog.RunLog.Read | crates/evo-runlog/src/store.rs:115-148 | Exactly the events of the inclusive range, in order |
| RunLog.RunLog.PutSnapshot | crates/evo-runlog/src/snapshot.rs:19-32 | The row replaces any at its key, or nothing changes |
| RunLog.RunLog.SnapshotAtOrBefore | crates/evo-runlog/src/snapshot.rs:34-55 | The row of the greatest key not beyond the target, if any |
| RunLog.RunLog.ClearSnapshots | crates/evo-runlog/src/snapshot.rs:65-68 | No snapshot is left, and the number dropped is reported |
| Replay.ReplayToChecked | crates/evo-daemon/src/replay.rs:95-144 | Replay computes the specified result for any store contents, honest or not; without snapshots that is the fold of the log up to the target, and of the whole log if there is no target or it lies beyond |
| Replay.ReplayOfRow | crates/evo-daemon/src/replay.rs:95-144 | The greatest row within the target decides: undecodable it fails the replay, with another hash it is dropped and reported with both hashes, otherwise the log is folded on from its own event |
| Replay.SnapshotsOnlyAccelerate | crates/evo-daemon/src/replay.rs:95-144 | With honest hash columns and a collision-free hash, replay through any decodable blobs equals the full fold to every target; a lying blob is dropped and reported |
| Replay.RuntimeSnapshotsReplay | crates/evo-daemon/src/runtime.rs:1796-1815 | With rows as the runtime writes them, replay neither fails nor rejects and equals the full fold |
| Replay.CheckpointLeadsOn | crates/evo-daemon/src/replay.rs:95-144 | Folding in a checkpoint wipes out a difference in position and checkpoint mark, and no other |
| Replay.ReplayIsTrueExactly | crates/evo-daemon/src/replay.rs:95-144 | For any store contents: replay to every target is the full fold if and only if every row decodes and every row that passes its own check leads on as the log does |
| Replay.ForgedRowIsHarmlessExactly | crates/evo-daemon/src/replay.rs:95-144 | All replays from a self-consistent row at a checkpoint are true if and only if its state is the folded one but for position and checkpoint mark |
| Replay.ForgedHashIsBelieved | crates/evo-daemon/src/replay.rs:95-144 | The condition can fail: on a lawful log that verifies, the row of its own checkpoint, rewritten in both columns, is believed |
| Replay.Verify | crates/evo-daemon/src/replay.rs:172-199 | Counts the checkpoints, lists every mismatch, and hashes the final fold |
| Replay.ReportIsExact | crates/evo-daemon/src/replay.rs:172-199 | A sequence number is reported exactly when a checkpoint stands there whose recorded hash is not that of the state before it |
| Replay.ReportsAreTrue | crates/evo-daemon/src/replay.rs:172-199 | Mismatches are reported once each, in order, with the recorded hash as the expected and the folded one as the actual |
| Replay.LawfulLogsVerify | crates/evo-daemon/src/replay.rs:172-199 | No log the runtime can write, at any crash point, fails verification |
| Replay.TamperingShowsAtCheckpoint | crates/evo-daemon/src/replay.rs:172-199 | Tampering changes the fold before a checkpoint if and only if verification reports that checkpoint |
| Anchors.ActsAreAnchored | crates/evo-daemon/src/runtime.rs:1620-1623 | In every run each write or external effect is dispatched directly after a pre-write checkpoint of the very state it is dispatched from |
| Anchors.JudgementsAreAnchored | crates/evo-daemon/src/runtime.rs:1455-1549 | So is each approval asked for, each refusal by the gateway and each refusal by a human, after a pre-approval checkpoint |
| Anchors.DeadlinesAreADayAway | crates/evo-daemon/src/runtime.rs:1500-1533 | An approval's deadline is a day after the last clock reading in the log |
| Anchors.OverdueIsADayLate | crates/evo-daemon/src/runtime.rs:877-898 | An approval is overdue exactly once a day has passed since the last clock reading before it was asked for |
| Anchors.EachHasItsOwnAnchor | crates/evo-daemon/src/replay.rs:25-42 | A run has at least as many checkpoints as acts and judgements: no two share one |
| Anchors.VerificationIsNotVacuous | crates/evo-daemon/src/replay.rs:25-42 | Verifying a run in which anything was done to the world, refused or put to a human checks something, and finds it true |
| Traces.LastAtIsNewest | crates/evo-daemon/src/runtime.rs:1731-1737 | The artifact a new one replaces is the newest at its path, and there is none exactly when the path is new |
| Traces.CommandsWrite | crates/evo-daemon/src/runtime.rs:1093-1241 | No command of the kernel is carried out without writing something |
| Traces.StepsAreWarranted | crates/evo-kernel/src/decide.rs:64-159 | Every step of driving is warranted by the log as it then was: a periodic checkpoint only when due, a stop for money only without money, new work only for an idle run, effects, questions and endings only with the turn's plan on file |
| Traces.StallMeansOpenEffect | crates/evo-daemon/src/runtime.rs:727-757 | A run is given up as stalled only where exactly one effect is open, was requested, and there is money for it; an approval still pending then is that effect's, and an approved effect was granted |
| Traces.DriveOn | crates/evo-daemon/src/runtime.rs:677-709 | Carrying out the kernel's first command of the log as it stands extends a driven log |
| Traces.DriveFurther | crates/evo-daemon/src/runtime.rs:677-709 | Driving on from where driving stopped is driving |
| Traces.DrivingIsStepByStep | crates/evo-daemon/src/runtime.rs:677-759 | A driven run falls into steps, each the kernel's first command for the state just before it, carried out within 64 turns; what follows the last is the failure at the turn limit, the failure as stalled, or nothing because the kernel decides nothing |
| Outcomes.PlayIsFold | crates/evo-kernel/src/reduce.rs:312-316 | The entries of an operation, played on the state before it, give the fold of the log after it |
| Outcomes.ExecutionMeans | crates/evo-daemon/src/runtime.rs:1606-1708 | An effect that ran is closed, as denied exactly if the executor refused; the run is tainted by it exactly as the executor says, has paid its price, moved on a turn, has one more artifact exactly for a file written, and a new checkpoint exactly for a write or external effect; nothing else changed |
| Outcomes.CostsAddUp | crates/evo-daemon/src/runtime.rs:1754-1790 | What is charged sums up to what the executor reported, else to the listed prices; a reported zero charges nothing |
| Outcomes.RefusalMeans | crates/evo-daemon/src/runtime.rs:1455-1498 | A refused effect is denied and free, and the run has failed or waits for money |
| Outcomes.AskingMeans | crates/evo-daemon/src/runtime.rs:1500-1549 | A question to a human leaves that one approval pending, due 86 400 000 ms after the last reading, and the run waiting for it |
| Outcomes.AdmissionMeans | crates/evo-daemon/src/runtime.rs:1390-1598 | How a run stands once an effect was asked for, by the gateway's action: closed by a dispatch, failed with the gateway's own reason, waiting for money, or waiting for the approval of that effect; only an effect that ran costs anything |
| Outcomes.PlanMeans | crates/evo-daemon/src/runtime.rs:1327-1388 | The plan recorded has a call exactly if the model wants a tool and names it, a question exactly if it wants to ask, each as parsed, under the run's turn and taint |
| Outcomes.ModelCallMeans | crates/evo-daemon/src/runtime.rs:1243-1388 | After a model call its tokens are counted; an unpriced model has failed the run before any cost, a reply that is no plan after its charges, and otherwise the plan is on file |
| Outcomes.RebuiltIsAdmitted | crates/evo-daemon/src/runtime.rs:1072-1091 | The request rebuilt from the log for a later dispatch is the one the gateway handed on, but for the taint and capability of the moment |
| Runtime.Runtime.Emit | crates/evo-daemon/src/runtime.rs:303-318 | One lawful event is appended and the state stays the fold of the log, or nothing happens |
| Runtime.Runtime.Checkpoint | crates/evo-daemon/src/runtime.rs:1796-1815 | The entry records the hash of the state before it, and exactly that state and hash are stored beside it |
| Runtime.Runtime.EmitCharges | crates/evo-daemon/src/runtime.rs:1310-1318 | Exactly the charges, in order, and nothing but accounting changes |
| Runtime.Runtime.EmitArtifact | crates/evo-daemon/src/runtime.rs:1714-1746 | The artifact entry names the one it replaces: the newest at that path |
| Runtime.Runtime.DispatchEffect | crates/evo-daemon/src/runtime.rs:1606-1708 | Announcement, one result, the artifact of a successful write and the charges of an effect that ran, in that order; the turn moves on by one |
| Runtime.Runtime.AnnounceDispatch | crates/evo-daemon/src/runtime.rs:1606-1652 | A pre-write checkpoint exactly for writes and external effects, then the dispatch |
| Runtime.Runtime.SettleEffect | crates/evo-daemon/src/runtime.rs:1654-1708 | For any executor answer: the result, an artifact only for a successful file write, charges only if it ran |
| Runtime.Runtime.ChargeEffect | crates/evo-daemon/src/runtime.rs:1754-1790 | The reported cost wins, a reported zero is free, else the price table's charges |
| Runtime.Runtime.RequestEffect | crates/evo-daemon/src/runtime.rs:1390-1427 | The entries are the gateway's own for this call, followed by what its action demands; the run stopped or moved on one turn |
| Runtime.Runtime.HandleGatewayAction | crates/evo-daemon/src/runtime.rs:1442-1598 | A wanted preview is answered with none and its events written; the loop ends in one final action |
| Runtime.Runtime.ActOn | crates/evo-daemon/src/runtime.rs:1442-1598 | Each final action leaves exactly its entries: execution, refusal, question to a human, or suspension for money |
| Runtime.Runtime.RefuseEffect | crates/evo-daemon/src/runtime.rs:1455-1498 | A checkpoint, the denial of the effect, and the event that stops the run, in that order |
| Runtime.Runtime.AskForApproval | crates/evo-daemon/src/runtime.rs:1500-1540 | A checkpoint, the approval with its deadline a day after the last clock reading, the suspension; the run waits for that approval |
| Runtime.Runtime.CallModel | crates/evo-daemon/src/runtime.rs:1243-1388 | Request, reply, charges, plan; an unpriced model fails the run before anything is charged, a reply that is no plan after |
| Runtime.Runtime.EmitPlan | crates/evo-daemon/src/runtime.rs:1327-1388 | The plan is recorded under the taint the run has now |
| Runtime.Runtime.AnswersSoFar | crates/evo-daemon/src/runtime.rs:957-1009 | The loop collects exactly the answers of the log, each with its question |
| Runtime.Runtime.OutputsSoFar | crates/evo-daemon/src/runtime.rs:1037-1067 | The loop collects exactly the contents handed back, each with the tool of its request |
| Runtime.Runtime.AssembleTurnContext | crates/evo-daemon/src/runtime.rs:1114-1169 | The context recorded shows the intent, every answer of the log as this runtime's content for it and everything handed back; the missing intent is the one fault besides storage, and a fault writes nothing |
| Runtime.Runtime.AskHuman | crates/evo-daemon/src/runtime.rs:1198-1217 | The question, named after the event before it, then the suspension on that very question |
| Runtime.Runtime.ExecuteCommand | crates/evo-daemon/src/runtime.rs:1093-1241 | Every command leaves exactly the entries that carry it out, and brings the run nearer to its end or stops it |
| Runtime.Runtime.FailureMessage | crates/evo-daemon/src/runtime.rs:808-823 | Exactly what the log's last event says: the code of a failure, a plan that could not be carried out, or that the event does not explain it |
| Runtime.DrivenFailuresAreExplained | crates/evo-daemon/src/runtime.rs:803-823 | A run that failed while it was driven says why: the code of its last event, or that its plan could not be carried out |
| Runtime.Runtime.Drive | crates/evo-daemon/src/runtime.rs:677-759 | Ends before its iteration guard; what it writes is what the kernel decides, step by step, until a reason to stop; from a running state the log ends in why |
| Runtime.Runtime.ExecuteAll | crates/evo-daemon/src/runtime.rs:704-708 | The commands of one decision, each still the kernel's first choice when it is carried out |
| Runtime.Runtime.FindToolRequested | crates/evo-daemon/src/runtime.rs:827-840 | The request of an effect stands at the place its id names, or nowhere |
| Runtime.Runtime.RebuildEffectRequest | crates/evo-daemon/src/runtime.rs:1072-1091 | The request rebuilt for a later dispatch is the one on file, under the taint the run has now |
| Runtime.Runtime.Restore | crates/evo-daemon/src/replay.rs:66-92 | Reading back through whatever snapshots the runtime left gives the fold of the log |
| Runtime.Runtime.ExpireOverdueApprovals | crates/evo-daemon/src/runtime.rs:877-898 | The pending approval expires exactly when its deadline has passed, and otherwise nothing is written |
| Runtime.Runtime.Resume | crates/evo-daemon/src/runtime.rs:416-496 | Exactly while an approval is pending and its deadline has not passed nothing is written; otherwise expiry, the resumption, the approved effect as it was requested, then driving to an end |
| Runtime.Runtime.Carry | crates/evo-daemon/src/runtime.rs:459-496 | The resumption comes before the approved effect, and that before driving |
| Runtime.Runtime.DispatchApproved | crates/evo-daemon/src/runtime.rs:480-493 | The effect a human approved is executed as requested, and nothing else is |
| Runtime.Runtime.DecideApproval | crates/evo-daemon/src/runtime.rs:502-559 | An unknown approval changes nothing; a decision past the deadline is replaced by the expiry, one in time is recorded as a grant or a checkpointed refusal; then the run goes on |
| Runtime.Runtime.AnswerClarification | crates/evo-daemon/src/runtime.rs:562-606 | Only the pending question and only one of its options; the answer is recorded and the run goes on |
| Runtime.Runtime.AmendBudget | crates/evo-daemon/src/runtime.rs:624-666 | The amendment is recorded; a run waiting for money is resumed, one still running is driven, any other is left alone; a failure is reported without its reason exactly for a run that had failed and was not waiting for money |
| Runtime.Runtime.Start | crates/evo-daemon/src/runtime.rs:349-401 | Creation, intent, driving to an end; the intent is never missing |
| Runtime.History | crates/evo-daemon/src/runtime.rs:321-666 | A whole life of a run, any calls in any order, each cut off anywhere: the log stays safe and verifies, its requests say what the gateway's manifests say, and its contexts show this runtime's contents |
| Runtime.IdsAreWhereTheySay | crates/evo-daemon/src/runtime.rs:1396-1396 | An effect, an approval or a question is named after the place of its request, so ids are fresh |
| Runtime.IntentStays | crates/evo-kernel/src/reduce.rs:41-43 | Once declared, the intent stays |
| LogMeaning.EffectsAreExact | crates/evo-kernel/src/reduce.rs:91-132 | On file are exactly the effects requested, each in the state its own dispatch, result, grant, refusal or expiry left it in |
| LogMeaning.ApprovalsAreExact | crates/evo-kernel/src/reduce.rs:224-266 | Pending are exactly the approvals asked for and not decided since, each for its own effect |
| LogMeaning.QuestionIsExact | crates/evo-kernel/src/reduce.rs:267-298 | Pending is exactly the last question put to a human while none was answered since |
| LogMeaning.LastWordCounts | crates/evo-kernel/src/reduce.rs:37-81 | Seed, clock, context record, limits and intent are those of the last event that sets them |
| LogMeaning.StatusIsExact | crates/evo-kernel/src/reduce.rs:152-223 | How a run stands is what its last word on that says: a completion as a failure is a failure, a partial one is not |
| LogMeaning.WaitIsExact | crates/evo-kernel/src/reduce.rs:161-220 | What a run waits for is what its last suspension, not resumed since, found: the one approval pending then with its effect, the question put to a human, money, or a pause |
| LogMeaning.TurnIsCounted | crates/evo-kernel/src/reduce.rs:91-132 | In every run the turn is the number of results, refusals and expiries in the log: each ends one effect and none ends two |
| LogMeaning.WorkWaitsForEffects | crates/evo-kernel/src/decide.rs:64-111 | In every run new work starts only once each effect requested before has its result, its refusal or its expiry in the log |
| LogMeaning.KernelStops | crates/evo-kernel/src/decide.rs:64-111 | The kernel wants one thing at most besides a checkpoint, stops for money exactly when a limit is reached, and else wants nothing while an effect is awaited |
| LogMeaning.KernelFollowsTheLog | crates/evo-kernel/src/decide.rs:112-159 | With money left and no effect awaited its wish is read off the log: a sample of this turn if there is none, a context if there is none since the last answer, a model call if there is no plan since, and else what that plan says |
| Delivery.InvariantHolds | crates/evo-daemon/src/http.rs:290-416 | Queue, wire, backlog and client of every connection fit together without a seam, over every interleaving of appends, sends, reads, drains, drops and crashes |
| Delivery.ForwardOneKeeps | crates/evo-daemon/src/http.rs:369-416 | Draining the broadcast forwards exactly the next event of a run, and skips what the backlog already brought |
| Delivery.TakeBacklogKeeps | crates/evo-daemon/src/http.rs:323-366 | Reading the backlog after subscribing leaves no gap to what the broadcast brings |
| Delivery.DeliveredOnceInOrder | apps/ui/src/daemon/client.ts:316-388 | What a subscriber to one run is handed across all reconnects is its log from where it asked, no gap, no duplicate, no reordering |
| Delivery.QuietMeansComplete | crates/evo-daemon/src/http.rs:290-416 | Once nothing is on its way a subscriber to one run has exactly that run's entries from where it asked, a subscriber to all has every entry of every log |
| Delivery.CanAlwaysCatchUp | crates/evo-daemon/src/http.rs:290-416 | From every state any interleaving reaches, steps remain that hand the client everything, with the logs as they are: nothing gets stuck |
| Delivery.CaughtUpIsTrue | crates/evo-daemon/src/http.rs:336-343 | The mark names exactly the last event handed to a subscriber to one run; a subscriber to all holds every event of the run up to it; a run that brought nothing is marked just before where it was asked for |
| Delivery.DeliveredInRunOrder | apps/ui/src/daemon/client.ts:390-435 | A subscriber to all runs sees each run from its first event on, nothing before its predecessor, and only what the logs hold |
| Delivery.LogsOnlyGrow | crates/evo-runlog/src/store.rs:65-113 | Over every interleaving logs only grow and stay numbered without a gap |
| StableSort.SortIsCorrect | apps/ui/src/projection/fold.ts:164-168 | Sorted, a permutation, ties left in order |
| StableSort.StableSortIsUnique | apps/ui/src/projection/fold.ts:164-168 | Any stable sort computes the same sequence |
| Projection.RebuildInbox | apps/ui/src/projection/fold.ts:141-170 | The inbox holds exactly the open questions, approvals and budget stops of the runs, in time order |
| Projection.FoldRunEvents | apps/ui/src/projection/fold.ts:231-237 | Folding a log in order stores that log |
| Projection.DeliveredIsWhatCame | apps/ui/src/projection/fold.ts:233-235 | What has come of a run is always a prefix of its log |
| Projection.ApplyEventFinds | apps/ui/src/projection/fold.ts:172-180 | An event changes its own run and no other, and no run is listed twice |
| Projection.ViewIsTheFold | apps/ui/src/projection/fold.ts:231-365 | However often events are redelivered and however runs interleave, each run's view is the fold of its longest delivered prefix, and the inbox is rebuilt from the runs |
| Projection.SubscriberViewIsTheFold | apps/ui/src/daemon/client.ts:390-435 | The same, for what the event stream really delivers to the client subscribed to every run |
| Projection.SubscriberViewIsComplete | apps/ui/src/daemon/client.ts:390-435 | Once the stream is quiet the view of every run is the fold of its whole log |
| Agreement.ClientAgreesWithKernel | apps/ui/src/projection/fold.ts:231-361 | On every lawful log client and kernel agree on question, limits, meters, intent, artifacts and approval cards, entry by entry, on what a suspended run waits for, and on the status except exactly when the run completed as a failure, which the kernel calls failed and the client completed |
| Agreement.CompletedAsFailureIsLast | apps/ui/src/projection/fold.ts:258-263 | A run counts as completed as a failure exactly when that is the log's last word on its status |
| Agreement.LastImpactIsNewest | apps/ui/src/projection/fold.ts:189-229 | The estimate a card shows is the newest of its effect, and none exactly when there is none |
| Agreement.InboxIsExact | apps/ui/src/projection/fold.ts:141-170 | What stands in the inbox of a run is exactly its pending question as it was asked, its pending approvals each with tool and newest estimate, and one stop for money while the kernel waits for money |
| Agreement.WorkspaceInboxIsExact | apps/ui/src/daemon/client.ts:390-435 | Once the stream is quiet the inbox of the client subscribed to every run holds exactly those items of every run's log |
| Agreement.ReasonAgreesExactly | apps/ui/src/projection/fold.ts:252-263 | On every lawful log they agree on what the run waits for exactly while it is suspended or the kernel waits for nothing, and the kernel waits only for a suspended or a failed run |
| Disagreement.HollowRunShowsBoth | apps/ui/src/projection/fold.ts:258-263 | The first exception is real: a start under any gateway can drive a run to an end that the kernel holds failed and the client completed |
| Disagreement.FailureKeepsTheWait | crates/evo-daemon/src/runtime.rs:692-697 | The second is too: after any suspension the run may fail next, still waiting for the kernel and not for the client, and past the turn limit driving does that |
| Disagreement.BrokeRunWaits | crates/evo-kernel/src/decide.rs:98-103 | There are such suspended runs: one created without money |
| Agreement.CardsStep | apps/ui/src/projection/fold.ts:189-229 | The approval cards are the pending approvals, each with the tool of the effect it would release and the last estimate for it, kept by every lawful event |
| Agreement.BudgetItemMeansBudget | apps/ui/src/projection/fold.ts:154-162 | A budget item stands in the inbox exactly when the kernel holds the run for money, and points at the last suspension |
| ClientRecords.RecordsAreExact | apps/ui/src/projection/fold.ts:325-355 | Checkpoints, artifacts, turn and position shown are those of the log, entry by entry |
| ClientRecords.CheckpointsAreOnFile | apps/ui/src/projection/fold.ts:341-355 | Each checkpoint entry of the log is shown once, in order, with its own hash, reason and time, and nothing else is |
| ClientRecords.ArtifactsAreOnFile | apps/ui/src/projection/fold.ts:325-328 | Each artifact shown is an entry of the log, in order, with its own id, path, content and what it replaces |
| ClientRecords.EveryArtifactIsShown | apps/ui/src/projection/fold.ts:325-328 | Every artifact entry of the log is shown |
| ClientRecords.ShownCheckpointsAreTrue | apps/ui/src/projection/fold.ts:341-355 | Every checkpoint the client shows of a run carries the hash of the state just before it |
| Accounting.KernelMetersAreExact | crates/evo-kernel/src/reduce.rs:44-85 | Tokens and amount are the sums over the log; the wall meter is the longest distance from the first clock reading |
| Accounting.ClientMetersAreExact | apps/ui/src/projection/fold.ts:264-286 | The client's meters are the same sums, its cost lines the charges in order |
| Accounting.ClientMetersAreTheKernels | apps/ui/src/projection/fold.ts:328-340 | The client shows exactly the kernel's meters |
| Accounting.AmendingRefundsNothing | crates/evo-kernel/src/reduce.rs:137-148 | A budget amendment anywhere changes no meter |
| Accounting.AddCharges | crates/evo-daemon/src/http.rs:718-731 | One run's charges are added, capped at the largest 64-bit number, and counted |
| Accounting.CostQuery | crates/evo-daemon/src/http.rs:708-738 | The report is the capped sum and the number of all charges of the run or of all runs listed |
| Accounting.TotalIsOrderBlind | crates/evo-daemon/src/http.rs:708-738 | The total does not depend on the order runs are listed in |
| Accounting.WorkspaceCostIsTheDaemons | apps/ui/src/projection/fold.ts:367-373 | Once caught up, the daemon's report is the cost the client shows for the workspace, capped at the largest 64-bit number, and equal to it exactly up to there |
| Calendar.DaysRoundTrip | crates/evo-daemon/src/trigger.rs:268-289 | Day number to date and back is the identity, and the date is valid, for every day number |
| Calendar.DateRoundTrip | crates/evo-daemon/src/trigger.rs:268-289 | Date to day number and back is the identity for every valid date |
| Calendar.MonthsAreContiguous | crates/evo-daemon/src/trigger.rs:254-289 | The first of next month is the length of this month away |
| Calendar.YearsAreContiguous | crates/evo-daemon/src/trigger.rs:263-289 | Years of an era follow each other without a gap, leap days included |
| Calendar.DaysFollowTheCalendar | crates/evo-daemon/src/trigger.rs:268-280 | Day zero is 1 January 1970 and the next number is the next date of the Gregorian calendar |
| Calendar.DaysCountUp | crates/evo-daemon/src/trigger.rs:282-289 | Within a month day numbers count up |
| Calendar.WeekdaysFollowTheCalendar | crates/evo-daemon/src/trigger.rs:208-224 | The weekday computed from year, month and day is 3, a Thursday, on 1 January 1970, moves on by one each day modulo 7, and is the one the day number gives |
| Triggers.NextDailyIsFirst | crates/evo-daemon/src/trigger.rs:195-206 | The least instant at or after the given one at which the local clock, so many minutes of 60 000 ms from UTC, shows the given hour and minute |
| Triggers.NextWeeklyIsFirst | crates/evo-daemon/src/trigger.rs:208-224 | The least instant whose local date falls on the given weekday, counted from Monday by year, month and day, and whose local clock shows the given time |
| Triggers.MonthlyIsFirst | crates/evo-daemon/src/trigger.rs:226-252 | The slot of the first month that still has one ahead is the least such instant |
| Triggers.NextMonthly | crates/evo-daemon/src/trigger.rs:226-252 | The least such instant on the given day of a month, months without it skipped; three months always suffice and the fallback is unreachable |
| Triggers.NextFire | crates/evo-daemon/src/trigger.rs:150-185 | Every kind of spec gets its own first instant, or none |
| Triggers.ValidationIsExact | crates/evo-daemon/src/trigger.rs:94-146 | Validation lets in exactly the specs that can fire, with an offset of at most 840 minutes: an hour, minute, weekday or day of the month it refuses never comes, and what it lets in does |
| Triggers.RefusalNamesItsCause | crates/evo-daemon/src/trigger.rs:94-146 | A refusal names a part of the spec that is out of its range |
| Scheduler.Scheduler.Create | crates/evo-daemon/src/http.rs:786-843 | A trigger is stored only with a name, an intent and a spec that can fire, trimmed, waiting for its first instant, with a secret exactly for a webhook; each refusal has its reason |
| Scheduler.Scheduler.Edit | crates/evo-daemon/src/http.rs:803-827 | Only a different spec arms a trigger anew; with the spec it had, deadline and secret stay |
| Scheduler.Scheduler.Due | crates/evo-daemon/src/trigger.rs:382-397 | Exactly the unpaused triggers whose deadline has come, earliest first, equal deadlines in the order of their ids, none twice |
| Scheduler.Scheduler.FireRecord | crates/evo-daemon/src/http.rs:140-194 | Unknown, paused, busy and failed firings are told apart; only a started run moves the deadline, to the first slot after now |
| Scheduler.Scheduler.FireDue | crates/evo-daemon/src/http.rs:120-138 | One sweep gives every due trigger its turn, touches no other, and returns the runs it started |
| Scheduler.Scheduler.Life | crates/evo-daemon/src/http.rs:227-237 | Over any ticks, answers, new triggers and edits, as long as a trigger keeps its spec: no deadline is answered twice, a once-trigger fires at most once, interval firings are an interval apart |
| Scheduler.NextDeadline | crates/evo-daemon/src/http.rs:178-184 | None for once and webhook, one interval on, or the first slot strictly after now |
| Scheduler.FiringsProgress | crates/evo-daemon/src/http.rs:174-187 | Each firing progresses past all earlier ones of its trigger and leaves them behind |
| Scheduler.FiringsAreApart | crates/evo-daemon/src/http.rs:120-194 | Firings in time and past each other are apart |
| Scheduler.BlankIsTrimmedAway | crates/evo-daemon/src/http.rs:791-796 | A text trims to nothing exactly when it is white space throughout |
| Scheduler.TrimIsExact | crates/evo-daemon/src/http.rs:791-796 | Trimming takes white space and nothing else away, at both ends, and leaves a text that begins and ends with something else |
| Scheduler.NotLaterIsExact | crates/evo-daemon/src/trigger.rs:382-397 | The order of a sweep: an earlier deadline first, and for equal ones the id that comes first |
| Scheduler.TextOrderIsExact | crates/evo-daemon/src/trigger.rs:382-397 | A text comes before another if it is its beginning or smaller where they first differ |
| LineDiff.JoinSplit | apps/ui/src/workspace/Artifacts.tsx:12-13 | Splitting into lines loses nothing |
| LineDiff.SplitsIntoLines | apps/ui/src/workspace/Artifacts.tsx:12-13 | No line holds a line break, and there is at least one line |
| LineDiff.SplitIsUnique | apps/ui/src/workspace/Artifacts.tsx:12-13 | The split is the one non-empty sequence of such lines that joins to the text |
| LineDiff.LcsIsUpperBound | apps/ui/src/workspace/Artifacts.tsx:17-21 | No common subsequence is longer than the table's corner |
| LineDiff.KeptIsCommon | apps/ui/src/workspace/Artifacts.tsx:22-46 | What a script keeps is a common subsequence of what it edits |
| LineDiff.KeepingMostIsShortest | apps/ui/src/workspace/Artifacts.tsx:22-46 | A script that keeps that many lines is a shortest one |
| LineDiff.FillTable | apps/ui/src/workspace/Artifacts.tsx:16-21 | The in-place table holds the recurrence everywhere |
| LineDiff.ReadScript | apps/ui/src/workspace/Artifacts.tsx:22-46 | The walk over the table spells both sides and keeps as many lines as the table promises |
| LineDiff.Diff | apps/ui/src/workspace/Artifacts.tsx:8-47 | Every row is one line without a break; kept and deleted lines spell the old text, kept and added lines the new one; no script is shorter, and within a change deletions come first |
| WorkspacePath.EliminateParents | crates/evo-exec-local/src/workspace.rs:139-153 | Fails exactly when some prefix has more `..` than names; else leads where the components lead |
| WorkspacePath.FollowStaysBelow | crates/evo-exec-local/src/workspace.rs:139-153 | A path that never climbs out leads from any directory to a place below it |
| WorkspacePath.ResolveLexically | crates/evo-exec-local/src/workspace.rs:133-164 | The lexical stage's exact outcome, errors included |
| WorkspacePath.SensitiveByNames | crates/evo-exec-local/src/workspace.rs:155-160 | A path is refused as sensitive exactly when its leading names are those of a protected place, whole names only |
| WorkspacePath.SensitivePlaces | crates/evo-exec-local/src/workspace.rs:7-13 | Refused as sensitive are exactly .ssh, .aws, .gnupg, .config/gcloud and Library/Keychains and everything below them |
| WorkspacePath.NamesKeepTheirText | crates/evo-exec-local/src/workspace.rs:139-164 | The text of a list of names has those names as its components |
| WorkspacePath.StripMissing | crates/evo-exec-local/src/workspace.rs:201-212 | Stripping ends at the deepest existing ancestor, and the stripped tail is kept in order |
| WorkspacePath.ResolveThroughSymlinks | crates/evo-exec-local/src/workspace.rs:194-225 | The exact outcome: real ancestor plus tail, or an error when it does not resolve, lies outside or is hard-linked |
| WorkspacePath.DeepestIsDeepest | crates/evo-exec-local/src/workspace.rs:181-193 | What is kept exists and nothing longer does |
| WorkspacePath.ResolvedIsSafe | crates/evo-exec-local/src/workspace.rs:214-224 | The path is inside the workspace, goes through no link, resolves to itself, and is no hard-linked file |
| WorkspacePath.ResolveInWorkspace | crates/evo-exec-local/src/workspace.rs:133-225 | Every path handed out is safe in that sense; each refusal has its reason |
| PathMeaning.ResolverAgreesExactly | crates/evo-exec-local/src/workspace.rs:122-170 | For every path that passes the lexical stage, resolvable or not: tidied text and system agree at every step along it if and only if every component keeps them in step, links followed as far as the system follows them |
| PathMeaning.FirstMisstep | crates/evo-exec-local/src/workspace.rs:166-170 | They agree up to the first component that does not keep them in step, and not there |
| PathMeaning.OnlyDotsStray | crates/evo-exec-local/src/workspace.rs:166-170 | On a path the system resolves, every component keeps step if and only if every `..` leads back |
| PathMeaning.WithoutDotsInStep | crates/evo-exec-local/src/workspace.rs:122-132 | On a path without `..`, every component keeps step if and only if every `.` the system gets to stands in a directory |
| PathMeaning.RefusedYetHandedOut | crates/evo-exec-local/src/workspace.rs:194-225 | A path refused by the system where the two fall out of step is handed out as whatever its tidied text denotes, unless that is outside or has other names |
| PathMeaning.ResolverAgreesWithTheSystem | crates/evo-exec-local/src/workspace.rs:122-132 | Where every `..` leads back, the resolver hands out the very entry the system reaches, or refuses it because it is outside or has other names |
| PathMeaning.ResolverAgreesOnNewEntries | crates/evo-exec-local/src/workspace.rs:181-225 | The same for a path to something that does not exist yet |
| PathMeaning.WithoutDotsTheyAgree | crates/evo-exec-local/src/workspace.rs:122-132 | A path without `..` may follow any links the system follows |
| PathMeaning.LinklessPathsAgree | crates/evo-exec-local/src/workspace.rs:122-132 | Where no link is on the way every `..` leads back, and the place is the one the text names |
| PathMeaning.StrayDotsInstance | crates/evo-exec-local/src/workspace.rs:166-170 | A `..` can fail to lead back: for one link to the directory above, the resolver hands out the workspace and the system is outside it |
| PathMeaning.RefusedInstances | crates/evo-exec-local/src/workspace.rs:139-225 | Four paths the system refuses and the resolver hands out: a `..` or `.` behind a file, a `..` behind nothing, a link too many after a cancelled one |
| Closure.ComputeClosure | scripts/codex-closure.py:59-66 | On every graph, cyclic or not, exactly the packages reachable by a non-empty dependency path |
| Closure.ClosedHoldsPaths | scripts/codex-closure.py:59-66 | A set closed under dependencies holds every package on a path |

## Left out

- Storage and encoding: SQLite, serde, TOML and CBOR. The log is a sequence per run, snapshots a map, blobs opaque references.
- HTTP routing, authentication, the command line, the desktop shell and the React components: plumbing around the modelled parts.
- Real processes, sandboxing and timeouts: the executor is an arbitrary outcome.
- The model adapter, plan parsing and the wording of prompts: an arbitrary reply, plan or error. Which blocks a context has is modelled, and their texts are an arbitrary function of their content.
- Several runs in one store: each `Runtime` object holds one run's log; runs do not share state in the source except through the store. `Delivery`, `Projection` and `Accounting` do treat many runs.
- Starting a run whose id already has a log: ids are freshly allocated in `crates/evo-daemon/src/http.rs:92-101`, so `Start` begins with an empty log.
- Payload fields that no modelled code reads back: providers, digests, leases, cost dimensions, currency, labels, notes, the principal in the client's view, cites of artifacts.
- Overflow of the kernel's 64-bit meters and 32-bit turn: mathematical integers; the turn is proved to stay below 66.
- Runtime.Runtime.Emit: the broadcast that follows an append is part of `Delivery`, not of this method.
- Runtime.Runtime.AssembleTurnContext: how the content of an answer is put together from question, option and free text is an arbitrary function of the three; a block's scope is omitted.
- Runtime.Runtime.FailureMessage: the wording of the two messages that are not a failure's own code.
- Runtime.Runtime.Start: panics on a blob that is not the text the runtime wrote, or on a value that does not serialize, are not modelled.
- Delivery.DeliveredOnceInOrder: one client and one connection at a time; back-off delays, the retry limit and unsubscribing only mean that no further `Connect` happens. A receiver that lags behind the broadcast is the server hanging up.
- Delivery.CanAlwaysCatchUp: that the steps are taken, and how soon, is not modelled.
- Projection.RebuildInbox: the host's string comparison of time stamps is an arbitrary order-preserving rank.
- Scheduler.Scheduler.Life: sweeps, edits and creations follow each other one at a time, and triggers are not deleted; a webhook firing while another is under way is not guarded by the source and not modelled.
- Turn numbers of client and kernel, and terminal statuses as absorbing states: the code does not promise either. A resume writes `run.resumed` whatever the status, and at the turn limit `run.failed` may follow `run.suspended`.
- WorkspacePath.ResolveInWorkspace: one fixed file system per call; permissions, changes between the check and the use, and text that is not valid Unicode are not modelled. The class that creates the workspace directory, and its check of run ids, is not part of this model: its result, a real directory, is the precondition.
- PathMeaning.ResolverAgreesExactly: a slash at the end of a path, which asks the system for a directory and the resolver for nothing, is not a component in the model.
- WorkspacePath.StripMissing: the source's guard for running out of components is omitted, because the root always exists.
- Closure.ComputeClosure: reading the manifests is not modelled; the dependency graph is given.
- Deterministic random numbers, pricing lookup, configuration files, generated code and exports: easy or side members.
