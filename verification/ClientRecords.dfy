/** What the client shows of single log entries: position, turn, checkpoints and artifacts. */
module ClientRecords {
  import opened Protocol
  import opened KernelState
  import opened Events
  import opened Kernel
  import opened WriteProtocol
  import opened Projection
  import Accounting
  import Agreement
  import Replay

  function CheckpointsShown(log: seq<Event>): seq<CheckpointView>
  {
    if log == [] then []
    else
      var n := |log| - 1;
      match log[n].body
      case Checkpoint(hash, reason) =>
        CheckpointsShown(log[..n]) + [CheckpointView(log[n].seqNo, log[n].recordedAt, hash, reason)]
      case _ => CheckpointsShown(log[..n])
  }

  function ArtifactsShown(r: RunId, log: seq<Event>): seq<ArtifactView>
  {
    if log == [] then []
    else
      var n := |log| - 1;
      match log[n].body
      case ArtifactEmitted(id, path, blob, supersedes) =>
        ArtifactsShown(r, log[..n]) + [ArtifactView(r, log[n].seqNo, id, path, blob, supersedes)]
      case _ => ArtifactsShown(r, log[..n])
  }

  /** The turn of the last sampling. */
  function TurnSampled(log: seq<Event>): nat
  {
    if log == [] then 0
    else if log[|log| - 1].body.EnvSampled? then log[|log| - 1].body.turn
    else TurnSampled(log[..|log| - 1])
  }

  /** Each checkpoint entry of the log is shown once, in order, with its own hash, reason and time. */
  lemma {:induction false} CheckpointsAreOnFile(log: seq<Event>)
    requires Numbered(log)
    ensures var shown := CheckpointsShown(log);
      && (forall c :: c in shown ==>
            c.seqNo < |log| && log[c.seqNo].body == Checkpoint(c.stateHash, c.reason)
            && log[c.seqNo].recordedAt == c.recordedAt)
      && (forall i, j :: 0 <= i < j < |shown| ==> shown[i].seqNo < shown[j].seqNo)
      && |shown| == Replay.CheckpointsIn(log)
    decreases |log|
  {
    if log != [] {
      var n := |log| - 1;
      var init := CheckpointsShown(log[..n]);
      CheckpointsAreOnFile(log[..n]);
      forall c | c in init ensures c.seqNo < n && log[c.seqNo] == log[..n][c.seqNo] {
      }
      forall i | 0 <= i < |init| ensures init[i].seqNo < n {
        assert init[i] in init;
      }
    }
  }

  /** So is each artifact, with its own id, path, content and what it replaces. */
  lemma {:induction false} ArtifactsAreOnFile(r: RunId, log: seq<Event>)
    requires Numbered(log)
    ensures var shown := ArtifactsShown(r, log);
      && (forall a :: a in shown ==>
            a.runId == r && a.seqNo < |log|
            && log[a.seqNo].body == ArtifactEmitted(a.artifactId, a.path, a.blob, a.supersedes))
      && (forall i, j :: 0 <= i < j < |shown| ==> shown[i].seqNo < shown[j].seqNo)
    decreases |log|
  {
    if log != [] {
      var n := |log| - 1;
      var init := ArtifactsShown(r, log[..n]);
      ArtifactsAreOnFile(r, log[..n]);
      forall a | a in init ensures a.seqNo < n && log[a.seqNo] == log[..n][a.seqNo] {
      }
      forall i | 0 <= i < |init| ensures init[i].seqNo < n {
        assert init[i] in init;
      }
    }
  }

  /** And every artifact of the log is shown. */
  lemma {:induction false} EveryArtifactIsShown(r: RunId, log: seq<Event>, i: nat)
    requires Numbered(log) && i < |log| && log[i].body.ArtifactEmitted?
    ensures exists a :: a in ArtifactsShown(r, log) && a.seqNo == i
    decreases |log|
  {
    var n := |log| - 1;
    if i < n {
      assert log[..n][i] == log[i];
      EveryArtifactIsShown(r, log[..n], i);
      var a :| a in ArtifactsShown(r, log[..n]) && a.seqNo == i;
      assert a in ArtifactsShown(r, log);
    } else {
      var shown := ArtifactsShown(r, log);
      assert shown[|shown| - 1] in shown;
    }
  }

  predicate RecordsAgree(run: RunView, log: seq<Event>)
  {
    && run.checkpoints == CheckpointsShown(log)
    && run.artifacts == ArtifactsShown(run.runId, log)
    && run.turn == TurnSampled(log)
  }

  lemma CheckpointsStep(run: RunView, log: seq<Event>, ev: Event)
    requires run.checkpoints == CheckpointsShown(log)
    ensures ApplyBody(run, ev).checkpoints == CheckpointsShown(log + [ev])
  {
    hide Without, Rejoin;
    assert (log + [ev])[..|log|] == log;
    if !ev.body.Checkpoint? {
      hide ApplyBody;
      CheckpointsFrame(run, ev);
    }
  }

  lemma CheckpointsFrame(run: RunView, ev: Event)
    requires !ev.body.Checkpoint?
    ensures ApplyBody(run, ev).checkpoints == run.checkpoints
  {
    hide Without, Rejoin;
  }

  lemma ArtifactsStep(run: RunView, log: seq<Event>, ev: Event)
    requires run.artifacts == ArtifactsShown(run.runId, log)
    ensures ApplyBody(run, ev).artifacts == ArtifactsShown(run.runId, log + [ev])
  {
    hide Without, Rejoin;
    assert (log + [ev])[..|log|] == log;
    match ev.body
    case ArtifactEmitted(_, _, _, _) =>
    case _ =>
  }

  lemma TurnStep(run: RunView, log: seq<Event>, ev: Event)
    requires run.turn == TurnSampled(log)
    ensures ApplyBody(run, ev).turn == TurnSampled(log + [ev])
  {
    hide Without, Rejoin;
    assert (log + [ev])[..|log|] == log;
    if !ev.body.EnvSampled? {
      hide ApplyBody;
      TurnStays(run, ev);
    }
  }

  lemma TurnStays(run: RunView, ev: Event)
    requires !ev.body.EnvSampled?
    ensures ApplyBody(run, ev).turn == run.turn
  {
    hide Without, Rejoin;
  }

  /** The client's checkpoints, artifacts and turn are those of the log it was handed, entry by
      entry, and its position is the last one's. */
  lemma {:induction false} RecordsAreExact(r: RunId, log: seq<Event>)
    requires Numbered(log)
    ensures RecordsAgree(FoldRun(r, log), log)
    ensures FoldRun(r, log).lastSeq == if log == [] then 0 else |log| - 1
    decreases |log|
  {
    if log != [] {
      RecordsAreExact(r, log[..|log| - 1]);
      RecordsSnoc(r, log);
    }
  }

  lemma RecordsSnoc(r: RunId, log: seq<Event>)
    requires Numbered(log) && log != []
    requires RecordsAgree(FoldRun(r, log[..|log| - 1]), log[..|log| - 1])
    requires FoldRun(r, log[..|log| - 1]).lastSeq <= |log| - 1
    ensures RecordsAgree(FoldRun(r, log), log) && FoldRun(r, log).lastSeq == |log| - 1
  {
    hide FoldRun, ApplyBody, CheckpointsShown, ArtifactsShown, TurnSampled;
    var n := |log| - 1;
    var before := FoldRun(r, log[..n]);
    Accounting.FoldRunSnoc(r, log);
    assert log[..n] + [log[n]] == log;
    var recorded := before.(events := log, lastSeq := MaxNat(before.lastSeq, n));
    CheckpointsStep(recorded, log[..n], log[n]);
    ArtifactsStep(recorded, log[..n], log[n]);
    TurnStep(recorded, log[..n], log[n]);
    PositionStays(recorded, log[n]);
  }

  lemma PositionStays(run: RunView, ev: Event)
    ensures ApplyBody(run, ev).lastSeq == run.lastSeq && ApplyBody(run, ev).runId == run.runId
  {
    hide Without, Rejoin;
  }

  /** Every checkpoint the client shows of a run carries the hash of the state the log folds to just
      before it. */
  lemma ShownCheckpointsAreTrue(r: RunId, log: seq<Event>, view: CheckpointView)
    requires Lawful(log) && view in FoldRun(r, log).checkpoints
    ensures view.seqNo < |log| && view.stateHash == StateHash(Fold(log[..view.seqNo]))
  {
    hide FoldRun, Fold;
    LawfulIsNumbered(log);
    RecordsAreExact(r, log);
    CheckpointsAreOnFile(log);
    LawfulPrefix(log, view.seqNo);
  }
}
