/**
 * Rebuilding a state from the log, from the beginning or from a self-validated snapshot, and
 * checking a log against the hashes its checkpoints recorded.
 */
module Replay {
  import opened Protocol
  import opened KernelState
  import opened Events
  import opened Kernel
  import opened RunLog
  import opened WriteProtocol

  datatype SnapshotRejected = SnapshotRejected(seqNo: nat, expected: StateHash, actual: StateHash)
  datatype Replayed = Replayed(state: RunState, rejected: Option<SnapshotRejected>)
  datatype Mismatch = Mismatch(seqNo: nat, expected: StateHash, actual: StateHash)
  datatype VerifyReport = VerifyReport(checkpointsChecked: nat, mismatches: seq<Mismatch>, finalHash: StateHash)

  /** The sequence number a replay aims at. */
  function Target(events: seq<Event>, toSeq: Option<nat>): nat
  {
    if toSeq.Some? then toSeq.value else if events == [] then 0 else |events| - 1
  }

  /** What a replay returns for any store contents, honest or not. */
  function ReplayOf(events: seq<Event>, snapshots: map<nat, Snapshot>, target: nat, useSnapshots: bool):
    Result<Replayed, DaemonError>
  {
    var q := LatestKey(snapshots, target);
    if !useSnapshots || q.None? then Ok(Replayed(Fold(Stretch(events, 0, Some(target))), None))
    else
      var snap := snapshots[q.value];
      match snap.blob
      case Undecodable => Err(SnapshotDecode(snap.seqNo))
      case Encoded(state) =>
        if StateHash(state) == snap.hash then
          Ok(Replayed(FoldFrom(state, Stretch(events, snap.seqNo, Some(target))), None))
        else
          Ok(Replayed(Fold(Stretch(events, 0, Some(target))),
                      Some(SnapshotRejected(snap.seqNo, snap.hash, StateHash(state)))))
  }

  method ReplayToChecked(log: RunLog, toSeq: Option<nat>, useSnapshots: bool)
    returns (r: Result<Replayed, DaemonError>)
    requires log.Valid()
    ensures r == ReplayOf(log.events, log.snapshots, Target(log.events, toSeq), useSnapshots)
    ensures !useSnapshots ==>
      r == Ok(Replayed(Fold(log.events[..if toSeq.Some? && toSeq.value < |log.events| then toSeq.value + 1
                                         else |log.events|]), None))
  {
    ghost var end := if toSeq.Some? && toSeq.value < |log.events| then toSeq.value + 1 else |log.events|;
    assert Stretch(log.events, 0, Some(Target(log.events, toSeq))) == log.events[..end];
    var target: nat;
    if toSeq.Some? {
      target := toSeq.value;
    } else {
      var last := log.LastSeq();
      target := if last.Some? then last.value else 0;
    }
    var rejected: Option<SnapshotRejected> := None;
    var state, fromSeq := NewState(), 0;
    if useSnapshots {
      var found := log.SnapshotAtOrBefore(target);
      if found.Some? {
        var snap := found.value;
        if snap.blob.Undecodable? {
          return Err(SnapshotDecode(snap.seqNo));
        }
        var actual := StateHash(snap.blob.state);
        if actual == snap.hash {
          state, fromSeq := snap.blob.state, snap.seqNo;
        } else {
          rejected := Some(SnapshotRejected(snap.seqNo, snap.hash, actual));
        }
      }
    }
    var events := log.Read(fromSeq, Some(target));
    state := Refold(state, events);
    return Ok(Replayed(state, rejected));
  }

  method Refold(start: RunState, events: seq<Event>) returns (state: RunState)
    ensures state == FoldFrom(start, events)
  {
    state := start;
    var i := 0;
    while i < |events|
      invariant i <= |events|
      invariant state == FoldFrom(start, events[..i])
    {
      assert events[..i + 1] == events[..i] + [events[i]];
      FoldAppend(start, events[..i], events[i]);
      state := Reduce(state, events[i]);
      i := i + 1;
    }
    assert events[..i] == events;
  }

  /** A snapshot row whose hash column is the one a checkpoint wrote; the blob may be anything. */
  predicate HonestHash(events: seq<Event>, snap: Snapshot)
  {
    snap.seqNo <= |events| && snap.hash == StateHash(Fold(events[..snap.seqNo]))
  }

  /** A snapshot row exactly as a checkpoint wrote it. */
  predicate HonestSnapshot(events: seq<Event>, snap: Snapshot)
  {
    HonestHash(events, snap) && snap.blob == Encoded(Fold(events[..snap.seqNo]))
  }

  /** Whatever the blobs decode to, a replay through snapshots with honest hashes is the full
      fold of the log to its target; a blob that lies is found out and dropped. */
  lemma SnapshotsOnlyAccelerate(events: seq<Event>, snapshots: map<nat, Snapshot>, target: nat, useSnapshots: bool)
    requires KeysAgree(snapshots)
    requires forall q :: q in snapshots && q <= target ==> HonestHash(events, snapshots[q])
    ensures var r := ReplayOf(events, snapshots, target, useSnapshots);
      && (r.Ok? ==> r.value.state == Fold(Stretch(events, 0, Some(target))))
      && (r.Ok? && r.value.rejected.Some? ==>
            exists q :: q in snapshots && !HonestSnapshot(events, snapshots[q]))
      && (r.Err? ==> exists q :: q in snapshots && snapshots[q].blob.Undecodable?)
  {
    hide Reduce, FoldFrom;
    var q := LatestKey(snapshots, target);
    if useSnapshots && q.Some? {
      var snap := snapshots[q.value];
      if snap.blob.Encoded? && StateHash(snap.blob.state) == snap.hash {
        var all := Stretch(events, 0, Some(target));
        assert all[..snap.seqNo] == events[..snap.seqNo];
        assert all[snap.seqNo..] == Stretch(events, snap.seqNo, Some(target));
        FoldSplit(NewState(), all[..snap.seqNo], all[snap.seqNo..]);
        assert all[..snap.seqNo] + all[snap.seqNo..] == all;
      }
    }
  }

  /** With rows as the runtime writes them, replay neither fails nor rejects anything. */
  lemma RuntimeSnapshotsReplay(events: seq<Event>, snapshots: map<nat, Snapshot>, target: nat, useSnapshots: bool)
    requires KeysAgree(snapshots)
    requires forall q :: q in snapshots ==> HonestSnapshot(events, snapshots[q])
    ensures ReplayOf(events, snapshots, target, useSnapshots)
            == Ok(Replayed(Fold(events[..if target < |events| then target + 1 else |events|]), None))
  {
    SnapshotsOnlyAccelerate(events, snapshots, target, useSnapshots);
    StretchIsBeginning(events, target);
  }

  lemma StretchIsBeginning(events: seq<Event>, target: nat)
    ensures Stretch(events, 0, Some(target)) == events[..if target < |events| then target + 1 else |events|]
  {
  }

  /** What a replay makes of the row it finds, the greatest not beyond its target: one that does not
      decode fails it; one whose state has another hash is dropped and reported, and the log is folded
      from its beginning; one that passes is folded on from its own event. */
  lemma ReplayOfRow(events: seq<Event>, snapshots: map<nat, Snapshot>, target: nat, q: nat)
    requires KeysAgree(snapshots) && q in snapshots && q <= target
    requires forall p :: p in snapshots && p <= target ==> p <= q
    ensures var (r, snap) := (ReplayOf(events, snapshots, target, true), snapshots[q]);
      var upTo := events[..if target < |events| then target + 1 else |events|];
      && (snap.blob.Undecodable? ==> r == Err(SnapshotDecode(q)))
      && (snap.blob.Encoded? && snap.hash != StateHash(snap.blob.state) ==>
            r == Ok(Replayed(Fold(upTo), Some(SnapshotRejected(q, snap.hash, StateHash(snap.blob.state))))))
      && (snap.blob.Encoded? && snap.hash == StateHash(snap.blob.state) ==>
            r == Ok(Replayed(FoldFrom(snap.blob.state, if q <= |upTo| then upTo[q..] else []), None)))
  {
    hide Fold, FoldFrom;
    LatestKeyIsGreatest(snapshots, target, q);
    assert LatestKey(snapshots, target) == Some(q);
    StretchIsBeginning(events, target);
    var upTo := events[..if target < |events| then target + 1 else |events|];
    assert Stretch(events, q, Some(target)) == if q <= |upTo| then upTo[q..] else [];
  }

  // ---------------------------------------------------------------- rows nobody vouches for

  /** The self-check passes: the blob decodes to a state with the recorded hash. */
  predicate IsBelieved(snap: Snapshot)
  {
    snap.blob.Encoded? && StateHash(snap.blob.state) == snap.hash
  }

  /** The state a replay starts from leads on as the log itself does: folding in the row's own event
      wipes out every difference, or there is no such event and no difference. */
  predicate LeadsOn(events: seq<Event>, q: nat, s: RunState)
  {
    if q < |events| then Reduce(s, events[q]) == Reduce(Fold(events[..q]), events[q]) else s == Fold(events)
  }

  /** The same but for the position and the checkpoint mark. */
  predicate SameButMarks(s: RunState, t: RunState)
  {
    s == t.(lastSeq := s.lastSeq, lastCheckpointSeq := s.lastCheckpointSeq)
  }

  /** At a checkpoint, where every row the runtime writes stands, only those two are wiped out. */
  lemma CheckpointLeadsOn(events: seq<Event>, q: nat, s: RunState)
    requires q < |events| && events[q].body.Checkpoint?
    ensures LeadsOn(events, q, s) <==> SameButMarks(s, Fold(events[..q]))
  {
    hide Fold;
    var t, e := Fold(events[..q]), events[q];
    assert Reduce(s, e) == s.(lastSeq := e.seqNo, lastCheckpointSeq := Some(e.seqNo));
    assert Reduce(t, e) == t.(lastSeq := e.seqNo, lastCheckpointSeq := Some(e.seqNo));
    if Reduce(s, e) == Reduce(t, e) {
      assert s == Reduce(s, e).(lastSeq := s.lastSeq, lastCheckpointSeq := s.lastCheckpointSeq);
      assert t.(lastSeq := s.lastSeq, lastCheckpointSeq := s.lastCheckpointSeq)
          == Reduce(t, e).(lastSeq := s.lastSeq, lastCheckpointSeq := s.lastCheckpointSeq);
    }
  }

  /** From a state that leads on, every continuation from the row on is the full fold. */
  lemma LedOn(events: seq<Event>, q: nat, s: RunState, target: nat)
    requires LeadsOn(events, q, s) && q <= target
    ensures FoldFrom(s, Stretch(events, q, Some(target))) == Fold(Stretch(events, 0, Some(target)))
  {
    hide Fold, FoldFrom, Reduce;
    var all, rest := Stretch(events, 0, Some(target)), Stretch(events, q, Some(target));
    FoldIsFromNew(all);
    if q < |events| {
      FoldIsFromNew(events[..q]);
      assert rest == [events[q]] + rest[1..] && all == events[..q] + rest;
      FoldSplit(NewState(), events[..q], rest);
      FoldSplit(s, [events[q]], rest[1..]);
      FoldSplit(Fold(events[..q]), [events[q]], rest[1..]);
      FoldOne(s, events[q]);
      FoldOne(Fold(events[..q]), events[q]);
    } else {
      assert rest == [] && all == events;
      FoldNone(s);
    }
  }

  lemma FoldIsFromNew(events: seq<Event>)
    ensures Fold(events) == FoldFrom(NewState(), events)
  {
  }

  lemma FoldNone(s: RunState)
    ensures FoldFrom(s, []) == s
  {
  }

  lemma FoldOne(s: RunState, e: Event)
    ensures FoldFrom(s, [e]) == Reduce(s, e)
  {
    assert [e][..0] == [];
  }

  predicate ReplaysTruly(events: seq<Event>, snapshots: map<nat, Snapshot>, target: nat)
  {
    var r := ReplayOf(events, snapshots, target, true);
    r.Ok? && r.value.state == Fold(Stretch(events, 0, Some(target)))
  }

  lemma TruthOfReplay(events: seq<Event>, snapshots: map<nat, Snapshot>, target: nat)
    ensures ReplaysTruly(events, snapshots, target) <==>
            var r := ReplayOf(events, snapshots, target, true);
            r.Ok? && r.value.state == Fold(events[..if target < |events| then target + 1 else |events|])
  {
    hide Fold, ReplayOf;
    StretchIsBeginning(events, target);
  }

  /** The row decodes, and if its self-check passes its state leads on. */
  predicate IsSound(events: seq<Event>, snap: Snapshot)
  {
    snap.blob.Encoded? && (IsBelieved(snap) ==> LeadsOn(events, snap.seqNo, snap.blob.state))
  }

  lemma SoundRowReplays(events: seq<Event>, snapshots: map<nat, Snapshot>, target: nat)
    requires KeysAgree(snapshots)
    requires LatestKey(snapshots, target).Some? ==> IsSound(events, snapshots[LatestKey(snapshots, target).value])
    ensures ReplaysTruly(events, snapshots, target)
  {
    hide Fold, FoldFrom, Stretch, LeadsOn;
    var q := LatestKey(snapshots, target);
    if q.Some? && IsBelieved(snapshots[q.value]) {
      LedOn(events, q.value, snapshots[q.value].blob.state, target);
    }
  }

  lemma OwnTarget(events: seq<Event>, snapshots: map<nat, Snapshot>, q: nat)
    requires KeysAgree(snapshots) && q in snapshots && ReplaysTruly(events, snapshots, q)
    ensures IsSound(events, snapshots[q])
  {
    hide Fold, FoldFrom, Reduce;
    var snap := snapshots[q];
    assert LatestKey(snapshots, q) == Some(q);
    if IsBelieved(snap) {
      var s, all, rest := snap.blob.state, Stretch(events, 0, Some(q)), Stretch(events, q, Some(q));
      FoldIsFromNew(all);
      if q < |events| {
        FoldIsFromNew(events[..q]);
        assert rest == [events[q]] && all == events[..q] + rest;
        FoldSplit(NewState(), events[..q], rest);
        FoldOne(s, events[q]);
        FoldOne(Fold(events[..q]), events[q]);
      } else {
        assert rest == [] && all == events;
        FoldNone(s);
      }
    }
  }

  /**
   * The exact condition, for any store contents and every target: replay through the snapshots is the
   * full fold everywhere if and only if every row decodes and every row whose self-check passes leads
   * on. Honest hash columns are not needed for that, and a hash column nobody vouches for does not
   * help: what counts is the state.
   */
  lemma ReplayIsTrueExactly(events: seq<Event>, snapshots: map<nat, Snapshot>)
    requires KeysAgree(snapshots)
    ensures (forall target: nat ::
               var r := ReplayOf(events, snapshots, target, true);
               r.Ok? && r.value.state == Fold(events[..if target < |events| then target + 1 else |events|]))
       <==> (forall q :: q in snapshots ==>
               && snapshots[q].blob.Encoded?
               && var s := snapshots[q].blob.state;
                  snapshots[q].hash == StateHash(s) ==>
                    if q < |events| then Reduce(s, events[q]) == Reduce(Fold(events[..q]), events[q])
                    else s == Fold(events))
  {
    hide Fold, ReplayOf, Reduce;
    ReplayIsTrueIfSound(events, snapshots);
    forall target: nat
      ensures ReplaysTruly(events, snapshots, target) <==>
              var r := ReplayOf(events, snapshots, target, true);
              r.Ok? && r.value.state == Fold(events[..if target < |events| then target + 1 else |events|])
    {
      TruthOfReplay(events, snapshots, target);
    }
  }

  lemma ReplayIsTrueIfSound(events: seq<Event>, snapshots: map<nat, Snapshot>)
    requires KeysAgree(snapshots)
    ensures (forall target: nat :: ReplaysTruly(events, snapshots, target))
       <==> (forall q :: q in snapshots ==> IsSound(events, snapshots[q]))
  {
    hide ReplaysTruly, IsSound;
    if forall q :: q in snapshots ==> IsSound(events, snapshots[q]) {
      forall target: nat ensures ReplaysTruly(events, snapshots, target) {
        SoundRowReplays(events, snapshots, target);
      }
    }
    if forall target: nat :: ReplaysTruly(events, snapshots, target) {
      forall q | q in snapshots ensures IsSound(events, snapshots[q]) {
        OwnTarget(events, snapshots, q);
      }
    }
  }

  /** For one row at a checkpoint: all replays that start from it are true if and only if its state is
      the folded one but for position and checkpoint mark. */
  lemma ForgedRowIsHarmlessExactly(events: seq<Event>, snapshots: map<nat, Snapshot>, q: nat)
    requires KeysAgree(snapshots) && q in snapshots && IsBelieved(snapshots[q])
    requires q < |events| && events[q].body.Checkpoint?
    ensures (forall target: nat :: LatestKey(snapshots, target) == Some(q) ==> ReplaysTruly(events, snapshots, target))
       <==> SameButMarks(snapshots[q].blob.state, Fold(events[..q]))
  {
    hide ReplaysTruly, Fold, LeadsOn, SameButMarks;
    CheckpointLeadsOn(events, q, snapshots[q].blob.state);
    if LeadsOn(events, q, snapshots[q].blob.state) {
      forall target: nat | LatestKey(snapshots, target) == Some(q) ensures ReplaysTruly(events, snapshots, target) {
        SoundRowReplays(events, snapshots, target);
      }
    }
    assert LatestKey(snapshots, q) == Some(q);
    if ReplaysTruly(events, snapshots, q) {
      OwnTarget(events, snapshots, q);
    }
  }

  /** The condition can fail: a lawful log, the row of its own checkpoint rewritten in both columns,
      and the replay is the forger's state while the log itself still verifies. */
  lemma ForgedHashIsBelieved(at: string)
    ensures
      var events := [Event(0, at, Actor.Runtime, RunCreated(UNLIMITED)),
                     Event(1, at, Actor.Kernel, Events.Checkpoint(StateHash(AfterCreation()), Periodic))];
      var forged := AfterCreation().(turn := 7);
      var snapshots := map[1 := Snapshot(1, Encoded(forged), StateHash(forged))];
      && Lawful(events) && MismatchesIn(events) == [] && KeysAgree(snapshots) && IsBelieved(snapshots[1])
      && ReplayOf(events, snapshots, 1, true) == Ok(Replayed(forged.(lastSeq := 1, lastCheckpointSeq := Some(1)), None))
      && !ReplaysTruly(events, snapshots, 1)
  {
    var created, marked := Event(0, at, Actor.Runtime, RunCreated(UNLIMITED)),
                           Event(1, at, Actor.Kernel, Events.Checkpoint(StateHash(AfterCreation()), Periodic));
    var events := [created, marked];
    var forged := AfterCreation().(turn := 7);
    var snapshots := map[1 := Snapshot(1, Encoded(forged), StateHash(forged))];
    assert [created][..0] == [] && events[..1] == [created] && [created] + [marked] == events;
    assert [] + [created] == [created];
    FoldOne(NewState(), created);
    assert Fold([created]) == AfterCreation();
    LawfulAppend([], created);
    LawfulAppend([created], marked);
    LawfulLogsVerify(events);
    assert LatestKey(snapshots, 1) == Some(1);
    assert Stretch(events, 1, Some(1)) == [marked] && Stretch(events, 0, Some(1)) == events;
    FoldOne(forged, marked);
    FoldAppend(NewState(), [created], marked);
  }

  /** A run's state when all that is logged is its creation without limits. */
  function AfterCreation(): RunState
  {
    NewState().(lastSeq := 0, budget := UNLIMITED, status := Running)
  }

  // ---------------------------------------------------------------- verify

  predicate IsMismatch(events: seq<Event>, i: nat)
  {
    i < |events| && events[i].body.Checkpoint? && events[i].body.stateHash != StateHash(Fold(events[..i]))
  }

  function CheckpointsIn(events: seq<Event>): nat
  {
    if events == [] then 0
    else CheckpointsIn(events[..|events| - 1]) + (if events[|events| - 1].body.Checkpoint? then 1 else 0)
  }

  lemma {:induction false} CheckpointsAreCounted(events: seq<Event>)
    ensures CheckpointsIn(events) == |set i | 0 <= i < |events| && events[i].body.Checkpoint?|
    decreases |events|
  {
    assert (set i | 0 <= i < |events| && events[i].body.Checkpoint?) == MarksOf(events);
    if events != [] {
      var n := |events| - 1;
      CheckpointsAreCounted(events[..n]);
      assert (set i | 0 <= i < |events[..n]| && events[..n][i].body.Checkpoint?) == MarksOf(events[..n]);
      MarksGrow(events);
    }
  }

  function MarksOf(events: seq<Event>): set<int>
  {
    set i | 0 <= i < |events| && events[i].body.Checkpoint?
  }

  lemma MarksGrow(events: seq<Event>)
    requires events != []
    ensures var n := |events| - 1;
            |MarksOf(events)| == |MarksOf(events[..n])| + if events[n].body.Checkpoint? then 1 else 0
  {
    var n := |events| - 1;
    assert forall i :: 0 <= i < n ==> events[..n][i] == events[i];
    assert MarksOf(events) == MarksOf(events[..n]) + if events[n].body.Checkpoint? then {n} else {};
  }

  /** The checkpoints whose recorded hash is not the hash of the state folded up to them. */
  function MismatchesIn(events: seq<Event>): seq<Mismatch>
  {
    if events == [] then []
    else
      var n := |events| - 1;
      MismatchesIn(events[..n]) +
      (if IsMismatch(events, n) then
         [Mismatch(events[n].seqNo, events[n].body.stateHash, StateHash(Fold(events[..n])))]
       else [])
  }

  lemma NothingToVerify()
    ensures CheckpointsIn([]) == 0 && MismatchesIn([]) == [] && Fold([]) == NewState()
  {
  }

  lemma VerifiedSoFar(events: seq<Event>, i: nat)
    requires i < |events|
    ensures Fold(events[..i + 1]) == Reduce(Fold(events[..i]), events[i])
    ensures CheckpointsIn(events[..i + 1]) == CheckpointsIn(events[..i]) + if events[i].body.Checkpoint? then 1 else 0
    ensures
      MismatchesIn(events[..i + 1])
      == MismatchesIn(events[..i])
         + if IsMismatch(events, i) then
             [Mismatch(events[i].seqNo, events[i].body.stateHash, StateHash(Fold(events[..i])))]
           else []
  {
    hide Reduce, Fold;
    assert events[..i + 1][..i] == events[..i];
    assert events[..i + 1] == events[..i] + [events[i]];
    FoldIsFromNew(events[..i]);
    FoldIsFromNew(events[..i + 1]);
    FoldAppend(NewState(), events[..i], events[i]);
  }

  method Verify(log: RunLog) returns (report: VerifyReport)
    requires log.Valid()
    ensures report == VerifyReport(CheckpointsIn(log.events), MismatchesIn(log.events), StateHash(Fold(log.events)))
  {
    hide Reduce, Fold, FoldFrom, CheckpointsIn, MismatchesIn;
    var state := NewState();
    var checked, mismatches := 0, [];
    var events := log.Read(0, None);
    assert events == log.events && events[..0] == [];
    NothingToVerify();
    var i := 0;
    while i < |events|
      invariant i <= |events|
      invariant state == Fold(events[..i])
      invariant checked == CheckpointsIn(events[..i])
      invariant mismatches == MismatchesIn(events[..i])
    {
      var event := events[i];
      if event.body.Checkpoint? {
        var actual := StateHash(state);
        checked := checked + 1;
        if actual != event.body.stateHash {
          mismatches := mismatches + [Mismatch(event.seqNo, event.body.stateHash, actual)];
        }
      }
      VerifiedSoFar(events, i);
      state := Reduce(state, event);
      i := i + 1;
    }
    assert events[..i] == events;
    report := VerifyReport(checked, mismatches, StateHash(state));
  }

  /** `Verify` reports a sequence number exactly when there is a checkpoint whose recorded hash is not
      that of the state just before it. */
  lemma ReportIsExact(events: seq<Event>, i: nat)
    requires Numbered(events)
    ensures (exists m :: m in MismatchesIn(events) && m.seqNo == i) <==>
            i < |events| && events[i].body.Checkpoint? && events[i].body.stateHash != StateHash(Fold(events[..i]))
  {
    hide Fold, MismatchesIn;
    ReportedIsMismatch(events, i);
  }

  /** Every mismatch is reported once, in order, with the recorded hash and the true one. */
  lemma {:induction false} ReportsAreTrue(events: seq<Event>)
    requires Numbered(events)
    ensures forall m :: m in MismatchesIn(events) ==>
              && m.seqNo < |events| && events[m.seqNo].body.Checkpoint?
              && m.expected == events[m.seqNo].body.stateHash && m.actual == StateHash(Fold(events[..m.seqNo]))
    ensures forall i, j :: 0 <= i < j < |MismatchesIn(events)| ==>
              MismatchesIn(events)[i].seqNo < MismatchesIn(events)[j].seqNo
    decreases |events|
  {
    hide Fold;
    if events != [] {
      var n := |events| - 1;
      var init := events[..n];
      ReportsAreTrue(init);
      forall m | m in MismatchesIn(init)
        ensures m.seqNo < n && events[m.seqNo] == init[m.seqNo] && init[..m.seqNo] == events[..m.seqNo]
      {
      }
      var found := MismatchesIn(init);
      forall i | 0 <= i < |found| ensures found[i].seqNo < n {
        assert found[i] in MismatchesIn(init);
      }
    }
  }

  lemma {:induction false} ReportedIsMismatch(events: seq<Event>, i: nat)
    requires Numbered(events)
    ensures (exists m :: m in MismatchesIn(events) && m.seqNo == i) <==> IsMismatch(events, i)
    decreases |events|
  {
    if events != [] {
      var n := |events| - 1;
      var init := events[..n];
      ReportedIsMismatch(init, i);
      if i < n {
        assert init[..i] == events[..i];
        assert init[i] == events[i];
      }
      var tail := if IsMismatch(events, n) then
        [Mismatch(events[n].seqNo, events[n].body.stateHash, StateHash(Fold(events[..n])))] else [];
      assert MismatchesIn(events) == MismatchesIn(init) + tail;
      if IsMismatch(events, n) {
        assert tail[0] in MismatchesIn(events);
      }
      forall m | m in MismatchesIn(init) ensures m in MismatchesIn(events) {
      }
    }
  }

  /** No log the runtime can write, at any crash point, fails verification. */
  lemma LawfulLogsVerify(events: seq<Event>)
    requires Lawful(events)
    ensures MismatchesIn(events) == []
  {
    if MismatchesIn(events) != [] {
      var m := MismatchesIn(events)[0];
      LawfulIsNumbered(events);
      ReportedAreIndices(events, m);
      ReportIsExact(events, m.seqNo);
      LawfulPrefix(events, m.seqNo);
    }
  }

  lemma {:induction false} ReportedAreIndices(events: seq<Event>, m: Mismatch)
    requires Numbered(events)
    requires m in MismatchesIn(events)
    ensures m.seqNo < |events|
    decreases |events|
  {
    if m in MismatchesIn(events[..|events| - 1]) {
      ReportedAreIndices(events[..|events| - 1], m);
    }
  }

  /** Tampering that changes the state folded up to a checkpoint is reported at it. */
  lemma TamperingShowsAtCheckpoint(honest: seq<Event>, tampered: seq<Event>, c: nat)
    requires Lawful(honest) && c < |honest| && honest[c].body.Checkpoint?
    requires |tampered| > c && tampered[c] == honest[c]
    requires forall k :: 0 <= k < |tampered| ==> tampered[k].seqNo == k
    ensures Fold(tampered[..c]) != Fold(honest[..c]) <==>
      exists m :: m in MismatchesIn(tampered) && m.seqNo == c
  {
    LawfulPrefix(honest, c);
    ReportIsExact(tampered, c);
  }
}
