/**
 * One run's append-only log, and the disposable snapshots beside it. Storage failures, and a
 * process killed between two appends, are the `Err` outcomes: the log then ends where it is.
 */
module RunLog {
  import opened Protocol
  import opened KernelState
  import opened Events
  import opened Kernel

  datatype DaemonError =
    | StoreFailure
    | ModelFailure
    | PricingFailure
    | ExecFailure
    | SnapshotDecode(at: nat)
    | UnknownApproval(approval: ApprovalId)
    | UnknownClarification(question: QuestionId)
    | UnknownClarificationOption(question: QuestionId, option: string)
    | MissingIntent

  // The stored bytes of a state: either they decode, or they do not.
  datatype StateBlob = Encoded(state: RunState) | Undecodable

  datatype Snapshot = Snapshot(seqNo: nat, blob: StateBlob, hash: StateHash)

  predicate KeysAgree(snapshots: map<nat, Snapshot>)
  {
    forall q :: q in snapshots ==> snapshots[q].seqNo == q
  }

  /** The greatest snapshot key not beyond `at`. */
  function LatestKey(snapshots: map<nat, Snapshot>, at: nat): (q: Option<nat>)
    ensures q.Some? ==> q.value in snapshots && q.value <= at
  {
    if at in snapshots then Some(at)
    else if at == 0 then None
    else LatestKey(snapshots, at - 1)
  }

  lemma {:induction false} LatestKeyIsGreatest(snapshots: map<nat, Snapshot>, at: nat, p: nat)
    requires p in snapshots && p <= at
    ensures LatestKey(snapshots, at).Some? && p <= LatestKey(snapshots, at).value
  {
    if at !in snapshots {
      LatestKeyIsGreatest(snapshots, at - 1, p);
    }
  }

  /** The stretch of a log from `fromSeq` to `toSeq`, both included, as far as it exists. */
  function Stretch(events: seq<Event>, fromSeq: nat, toSeq: Option<nat>): seq<Event>
  {
    var until := if toSeq.Some? && toSeq.value < |events| then toSeq.value + 1 else |events|;
    if fromSeq <= until then events[fromSeq..until] else []
  }

  /** A stretch holds the events numbered from its beginning to its end, and no others. */
  lemma StretchIsTheRange(events: seq<Event>, fromSeq: nat, toSeq: Option<nat>)
    ensures var found := Stretch(events, fromSeq, toSeq);
      && |found| == (var until := if toSeq.Some? && toSeq.value < |events| then toSeq.value + 1 else |events|;
                     if fromSeq < until then until - fromSeq else 0)
      && forall i :: 0 <= i < |found| ==> found[i] == events[fromSeq + i]
  {
  }

  lemma StretchSnoc(events: seq<Event>, e: Event, fromSeq: nat, toSeq: Option<nat>)
    ensures Stretch(events + [e], fromSeq, toSeq)
         == Stretch(events, fromSeq, toSeq)
            + if fromSeq <= |events| && (toSeq.None? || |events| <= toSeq.value) then [e] else []
  {
    var more := events + [e];
    if fromSeq <= |events| && (toSeq.None? || |events| <= toSeq.value) {
      assert Stretch(more, fromSeq, toSeq) == more[fromSeq..] == events[fromSeq..] + [e];
    } else if toSeq.Some? && toSeq.value < |events| {
      var until := toSeq.value + 1;
      assert fromSeq <= until ==> more[fromSeq..until] == events[fromSeq..until];
    }
  }

  class RunLog {
    var events: seq<Event>
    var snapshots: map<nat, Snapshot>

    /** Sequence numbers count from zero without a gap. */
    ghost predicate Valid()
      reads this
    {
      && (forall i :: 0 <= i < |events| ==> events[i].seqNo == i)
      && KeysAgree(snapshots)
    }

    constructor ()
      ensures Valid() && events == [] && snapshots == map[]
    {
      events, snapshots := [], map[];
    }

    method LastSeq() returns (last: Option<nat>)
      requires Valid()
      ensures last == if events == [] then None else Some(|events| - 1)
    {
      last := None;
      var i := 0;
      while i < |events|
        invariant i <= |events|
        invariant last == if i == 0 then None else Some(i - 1)
      {
        if last.None? || last.value < events[i].seqNo {
          last := Some(events[i].seqNo);
        }
        i := i + 1;
      }
    }

    /** Allocate the next sequence number and store the event, or store nothing. */
    method Append(actor: Actor, recordedAt: string, body: EventBody) returns (r: Result<Event, DaemonError>)
      requires Valid()
      modifies this`events
      ensures Valid()
      ensures r.Ok? ==> r.value == Event(|old(events)|, recordedAt, actor, body)
                        && events == old(events) + [r.value]
      ensures r.Err? ==> r.error == StoreFailure && events == old(events)
    {
      var last := LastSeq();
      var seqNo := if last.Some? then last.value + 1 else 0;
      var stored: bool := *;
      if !stored {
        return Err(StoreFailure);
      }
      var event := Event(seqNo, recordedAt, actor, body);
      events := events + [event];
      return Ok(event);
    }

    /** The events with `fromSeq <= seq <= toSeq`, in order. */
    method Read(fromSeq: nat, toSeq: Option<nat>) returns (found: seq<Event>)
      requires Valid()
      ensures found == Stretch(events, fromSeq, toSeq)
    {
      found := [];
      var i := 0;
      while i < |events|
        invariant i <= |events|
        invariant found == Stretch(events[..i], fromSeq, toSeq)
      {
        StretchSnoc(events[..i], events[i], fromSeq, toSeq);
        assert events[..i + 1] == events[..i] + [events[i]];
        if fromSeq <= events[i].seqNo && (toSeq.None? || events[i].seqNo <= toSeq.value) {
          found := found + [events[i]];
        }
        i := i + 1;
      }
      assert events[..i] == events;
    }

    method PutSnapshot(at: nat, blob: StateBlob, hash: StateHash) returns (r: Result<(), DaemonError>)
      requires Valid()
      modifies this`snapshots
      ensures Valid()
      ensures r.Ok? ==> snapshots == old(snapshots)[at := Snapshot(at, blob, hash)]
      ensures r.Err? ==> r.error == StoreFailure && snapshots == old(snapshots)
    {
      var stored: bool := *;
      if !stored {
        return Err(StoreFailure);
      }
      snapshots := snapshots[at := Snapshot(at, blob, hash)];
      return Ok(());
    }

    method SnapshotAtOrBefore(at: nat) returns (found: Option<Snapshot>)
      requires Valid()
      ensures found == if LatestKey(snapshots, at).Some? then Some(snapshots[LatestKey(snapshots, at).value])
                       else None
    {
      var q: nat := at;
      while q > 0 && q !in snapshots
        invariant q <= at
        invariant LatestKey(snapshots, q) == LatestKey(snapshots, at)
      {
        q := q - 1;
      }
      found := if q in snapshots then Some(snapshots[q]) else None;
    }

    method ClearSnapshots() returns (dropped: nat)
      requires Valid()
      modifies this`snapshots
      ensures Valid() && snapshots == map[] && dropped == |old(snapshots)|
    {
      dropped := |snapshots|;
      snapshots := map[];
    }
  }
}
