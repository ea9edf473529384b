/**
 * The event stream: a writer that appends first and broadcasts second, a server session that
 * subscribes before it reads the backlog and then drains the broadcast, and a client that
 * reconnects. Every interleaving of their steps, with connections and the daemon dying anywhere.
 */
module Delivery {
  import opened Protocol
  import opened Events

  // One entry of one run's log, as it travels.
  datatype Item = Item(run: RunId, event: Event)

  datatype Frame = EventFrame(item: Item) | CaughtUpFrame(run: RunId, atSeq: nat)

  datatype Phase =
    | Opening                                                    // the subscribe frame is on its way
    | Listing                                                    // subscribed to the broadcast
    | Reading(runs: seq<RunId>)                                  // backlogs still to read
    | Sending(run: RunId, todo: seq<Item>, rest: seq<RunId>)     // one backlog, read and being sent
    | Draining                                                   // the live loop
    | Closed                                                     // the server end is gone

  // One connection: what was asked for, the broadcast receiver, the server's dedup map, the wire.
  datatype Session = Session(
    only: Option<RunId>, fromSeq: nat, phase: Phase, queue: seq<Item>,
    lastSent: map<RunId, nat>, wire: seq<Frame>)

  // A subscriber to one run resumes after the last event it saw; a subscriber to all runs starts
  // over. `received` counts what this connection brought; `seen` is all that was ever handed on.
  datatype Client = Client(
    only: Option<RunId>, fromSeq: nat, lastObserved: Option<nat>,
    received: map<RunId, nat>, seen: seq<Item>)

  datatype System = System(
    logs: map<RunId, seq<Event>>, unsent: Option<Item>, session: Option<Session>, client: Client)

  datatype Action =
    | Append(run: RunId, recordedAt: string, actor: Actor, body: EventBody)
    | Broadcast
    | Crash
    | Connect
    | Subscribe
    | ListRuns(order: seq<RunId>)
    | ReadBacklog
    | SendBacklog
    | Forward
    | HangUp
    | Drop
    | Receive

  function LogOf(logs: map<RunId, seq<Event>>, r: RunId): seq<Event>
  {
    if r in logs then logs[r] else []
  }

  function Items(r: RunId, events: seq<Event>): (items: seq<Item>)
    ensures |items| == |events| && forall i :: 0 <= i < |items| ==> items[i] == Item(r, events[i])
  {
    seq(|events|, i requires 0 <= i < |events| => Item(r, events[i]))
  }

  function Backlog(r: RunId, log: seq<Event>, fromSeq: nat): seq<Item>
  {
    Items(r, if fromSeq <= |log| then log[fromSeq..] else [])
  }

  function NextFromSeq(c: Client): nat
  {
    if c.only.None? then 0 else if c.lastObserved.None? then c.fromSeq else c.lastObserved.value + 1
  }

  /** The filter of the live loop. */
  predicate Wanted(s: Session, item: Item)
  {
    && s.fromSeq <= item.event.seqNo
    && (s.only.None? || s.only.value == item.run)
    && !(item.run in s.lastSent && item.event.seqNo <= s.lastSent[item.run])
  }

  function Push(s: Session, item: Item): Session
  {
    s.(lastSent := s.lastSent[item.run := item.event.seqNo], wire := s.wire + [EventFrame(item)])
  }

  predicate NoDuplicates(xs: seq<RunId>)
  {
    forall i, j :: 0 <= i < j < |xs| ==> xs[i] != xs[j]
  }

  function Members(order: seq<RunId>): set<RunId>
  {
    set r | r in order
  }

  predicate Listening(s: Session)
  {
    !s.phase.Opening? && !s.phase.Closed?
  }

  function StartListing(s: Session): Session
  {
    if s.phase.Opening? then s.(phase := Listing) else s
  }

  function TakeListing(s: Session, known: set<RunId>, order: seq<RunId>): Session
  {
    if !s.phase.Listing? then s
    else if s.only.Some? then s.(phase := Reading([s.only.value]))
    else if NoDuplicates(order) && Members(order) == known then s.(phase := Reading(order))
    else s
  }

  function TakeBacklog(s: Session, logs: map<RunId, seq<Event>>): Session
  {
    if !s.phase.Reading? then s
    else if s.phase.runs == [] then s.(phase := Draining)
    else
      var r := s.phase.runs[0];
      s.(phase := Sending(r, Backlog(r, LogOf(logs, r), s.fromSeq), s.phase.runs[1..]))
  }

  function SendOne(s: Session): Session
  {
    if !s.phase.Sending? then s
    else if s.phase.todo != [] then Push(s, s.phase.todo[0]).(phase := s.phase.(todo := s.phase.todo[1..]))
    else
      var at := if s.phase.run in s.lastSent then s.lastSent[s.phase.run]
                else if s.fromSeq > 0 then s.fromSeq - 1 else 0;
      s.(phase := Reading(s.phase.rest), wire := s.wire + [CaughtUpFrame(s.phase.run, at)])
  }

  function ForwardOne(s: Session): Session
  {
    if !s.phase.Draining? || s.queue == [] then s
    else
      var t := s.(queue := s.queue[1..]);
      if Wanted(s, s.queue[0]) then Push(t, s.queue[0]) else t
  }

  function Close(s: Session): Session
  {
    s.(phase := Closed, queue := [])
  }

  /** One server step that touches only the session. */
  function ServerStep(logs: map<RunId, seq<Event>>, s: Session, a: Action): Session
  {
    match a
    case Subscribe => StartListing(s)
    case ListRuns(order) => TakeListing(s, logs.Keys, order)
    case ReadBacklog => TakeBacklog(s, logs)
    case SendBacklog => SendOne(s)
    case Forward => ForwardOne(s)
    case HangUp => Close(s)
    case _ => s
  }

  function ReceiveFrame(c: Client, f: Frame): Client
  {
    match f
    case CaughtUpFrame(_, _) => c
    case EventFrame(item) =>
      c.(lastObserved := Some(item.event.seqNo),
         received := c.received[item.run := item.event.seqNo + 1],
         seen := c.seen + [item])
  }

  /** One step of the whole system; an action that is not possible now changes nothing. */
  function Step(sys: System, a: Action): System
  {
    match a
    case Append(r, at, actor, body) =>
      if sys.unsent.Some? then sys
      else
        var event := Event(|LogOf(sys.logs, r)|, at, actor, body);
        sys.(logs := sys.logs[r := LogOf(sys.logs, r) + [event]], unsent := Some(Item(r, event)))
    case Broadcast =>
      if sys.unsent.None? then sys
      else if sys.session.Some? && Listening(sys.session.value) then
        var s := sys.session.value;
        sys.(unsent := None, session := Some(s.(queue := s.queue + [sys.unsent.value])))
      else sys.(unsent := None)
    case Crash =>
      sys.(unsent := None, session := if sys.session.None? then None else Some(Close(sys.session.value)))
    case Connect =>
      if sys.session.Some? then sys
      else
        sys.(session := Some(Session(sys.client.only, NextFromSeq(sys.client), Opening, [], map[], [])),
             client := sys.client.(received := map[]))
    case Drop => sys.(session := None)
    case Receive =>
      if sys.session.None? || sys.session.value.wire == [] then sys
      else
        var s := sys.session.value;
        sys.(session := Some(s.(wire := s.wire[1..])), client := ReceiveFrame(sys.client, s.wire[0]))
    case _ =>
      if sys.session.None? then sys
      else sys.(session := Some(ServerStep(sys.logs, sys.session.value, a)))
  }

  function Exec(sys: System, actions: seq<Action>): System
  {
    if actions == [] then sys else Step(Exec(sys, actions[..|actions| - 1]), actions[|actions| - 1])
  }

  predicate LogsCount(logs: map<RunId, seq<Event>>)
  {
    forall r, i :: r in logs && 0 <= i < |logs[r]| ==> logs[r][i].seqNo == i
  }

  /** Logs of any earlier life of the daemon, and a client that has seen nothing yet. */
  predicate Initial(sys: System)
  {
    && LogsCount(sys.logs) && sys.unsent.None? && sys.session.None?
    && sys.client.lastObserved.None? && sys.client.seen == [] && sys.client.received == map[]
  }

  // ---------------------------------------------------------------- what a connection holds

  function OfRun(items: seq<Item>, r: RunId): seq<Item>
  {
    if items == [] then []
    else if items[0].run == r then [items[0]] + OfRun(items[1..], r)
    else OfRun(items[1..], r)
  }

  function FramesOf(frames: seq<Frame>, r: RunId): seq<Item>
  {
    if frames == [] then []
    else if frames[0].EventFrame? && frames[0].item.run == r then [frames[0].item] + FramesOf(frames[1..], r)
    else FramesOf(frames[1..], r)
  }

  lemma {:induction false} OfRunAppend(items: seq<Item>, x: Item, r: RunId)
    ensures OfRun(items + [x], r) == if x.run == r then OfRun(items, r) + [x] else OfRun(items, r)
  {
    if items == [] {
      assert [x][1..] == [];
    } else {
      OfRunAppend(items[1..], x, r);
      assert (items + [x])[1..] == items[1..] + [x];
    }
  }

  lemma {:induction false} FramesOfAppend(frames: seq<Frame>, f: Frame, r: RunId)
    ensures FramesOf(frames + [f], r)
         == if f.EventFrame? && f.item.run == r then FramesOf(frames, r) + [f.item] else FramesOf(frames, r)
  {
    if frames == [] {
      assert [f][1..] == [];
    } else {
      FramesOfAppend(frames[1..], f, r);
      assert (frames + [f])[1..] == frames[1..] + [f];
    }
  }

  /** The event not yet broadcast is the last of its log. */
  predicate Pending(sys: System)
  {
    sys.unsent.Some? ==>
      var log := LogOf(sys.logs, sys.unsent.value.run);
      log != [] && sys.unsent.value == Item(sys.unsent.value.run, log[|log| - 1])
  }

  /** How many events of `r` the writer has broadcast, or will not broadcast any more. */
  function SentLen(sys: System, r: RunId): nat
    requires Pending(sys)
  {
    |LogOf(sys.logs, r)| - (if sys.unsent.Some? && sys.unsent.value.run == r then 1 else 0)
  }

  /** The first sequence number of `r` the server has not put on this connection's wire. */
  function NextUp(s: Session, r: RunId): nat
  {
    if r in s.lastSent then s.lastSent[r] + 1 else s.fromSeq
  }

  predicate IsSending(s: Session, r: RunId)
  {
    s.phase.Sending? && s.phase.run == r
  }

  /** And after the backlog it is sending is through. */
  function NextAfterBacklog(s: Session, r: RunId): nat
  {
    NextUp(s, r) + (if IsSending(s, r) then |s.phase.todo| else 0)
  }

  /** The next sequence number of `r` the client expects on this connection. */
  function Expected(c: Client, fromSeq: nat, r: RunId): nat
  {
    if r in c.received then c.received[r] else fromSeq
  }

  predicate Relevant(s: Session, r: RunId)
  {
    s.only.None? || s.only.value == r
  }

  /** The backlog of `r` is still to be read. */
  predicate Uncovered(s: Session, r: RunId)
  {
    match s.phase
    case Opening => true
    case Listing => true
    case Reading(runs) => r in runs
    case Sending(_, _, rest) => r in rest
    case Draining => false
    case Closed => false
  }

  /** `items` are the entries `lo..hi` of the log of `r`. */
  predicate IsStretch(items: seq<Item>, r: RunId, log: seq<Event>, lo: nat, hi: nat)
  {
    && lo + |items| == hi
    && (items != [] ==> hi <= |log|)
    && forall i :: 0 <= i < |items| && lo + i < |log| ==> items[i] == Item(r, log[lo + i])
  }

  /** The broadcast queue ends at the last broadcast event. */
  predicate QueueHolds(s: Session, r: RunId, log: seq<Event>, sent: nat)
  {
    |OfRun(s.queue, r)| <= sent && IsStretch(OfRun(s.queue, r), r, log, sent - |OfRun(s.queue, r)|, sent)
  }

  /** The wire goes on exactly where the client is. */
  predicate WireHolds(s: Session, c: Client, r: RunId, log: seq<Event>)
  {
    && s.fromSeq <= NextUp(s, r)
    && (Relevant(s, r) ==> IsStretch(FramesOf(s.wire, r), r, log, Expected(c, s.fromSeq, r), NextUp(s, r)))
    && (!Relevant(s, r) ==> FramesOf(s.wire, r) == [])
  }

  /** The backlog being sent goes on exactly where the wire ends. */
  predicate BacklogHolds(s: Session, r: RunId, log: seq<Event>)
  {
    && (Uncovered(s, r) ==> r !in s.lastSent)
    && (IsSending(s, r) ==>
          && Relevant(s, r) && r !in s.phase.rest
          && IsStretch(s.phase.todo, r, log, NextUp(s, r), NextAfterBacklog(s, r)))
  }

  /** A caught-up frame names the last event the client has when it gets to the frame. */
  predicate MarksHold(s: Session, c: Client, r: RunId)
  {
    forall i :: 0 <= i < |s.wire| && s.wire[i].CaughtUpFrame? && s.wire[i].run == r ==>
      s.wire[i].atSeq == Before(Expected(c, s.fromSeq, r) + |FramesOf(s.wire[..i], r)|)
  }

  function Before(n: nat): nat
  {
    if n > 0 then n - 1 else 0
  }

  /** Nothing lies between what was read and what is queued. */
  predicate NoSeam(s: Session, r: RunId, sent: nat)
  {
    Relevant(s, r) && !Uncovered(s, r) && !s.phase.Closed? ==>
      sent <= NextAfterBacklog(s, r) + |OfRun(s.queue, r)|
  }

  predicate RunInvariant(s: Session, c: Client, r: RunId, log: seq<Event>, sent: nat)
  {
    && (Listening(s) ==> QueueHolds(s, r, log, sent))
    && WireHolds(s, c, r, log)
    && BacklogHolds(s, r, log)
    && NoSeam(s, r, sent)
    && (Relevant(s, r) ==> MarksHold(s, c, r))
  }

  /** The shape of a connection, apart from what it holds of each run. */
  predicate SessionShape(s: Session, c: Client)
  {
    && s.only == c.only
    && (s.only.None? ==> s.fromSeq == 0)
    && (s.phase.Opening? ==> s.queue == [])
    && (s.phase.Reading? ==> NoDuplicates(s.phase.runs) && forall r :: r in s.phase.runs ==> Relevant(s, r))
    && (s.phase.Sending? ==> NoDuplicates(s.phase.rest) && forall r :: r in s.phase.rest ==> Relevant(s, r))
  }

  predicate InLog(logs: map<RunId, seq<Event>>, item: Item)
  {
    && item.event.seqNo < |LogOf(logs, item.run)|
    && item.event == LogOf(logs, item.run)[item.event.seqNo]
  }

  /** Whether entry `k` of `r` is among `items`. */
  predicate Holds(items: seq<Item>, r: RunId, k: nat)
  {
    exists i :: 0 <= i < |items| && items[i].run == r && items[i].event.seqNo == k
  }

  /** Nothing is delivered before its predecessor has been. */
  predicate GapFree(seen: seq<Item>)
  {
    forall i :: 0 <= i < |seen| && seen[i].event.seqNo > 0 ==>
      Holds(seen[..i], seen[i].run, seen[i].event.seqNo - 1)
  }

  /** What the deliveries of all runs promise: every run's events came in order, and this
      connection's are all there. */
  ghost predicate InOrder(c: Client)
  {
    GapFree(c.seen) && forall r, k :: r in c.received && 0 <= k < c.received[r] ==> Holds(c.seen, r, k)
  }

  /** What the client has been handed. */
  ghost predicate ClientInvariant(logs: map<RunId, seq<Event>>, c: Client, base: Option<nat>)
  {
    && (forall i :: 0 <= i < |c.seen| ==> InLog(logs, c.seen[i]))
    && (forall r :: r in c.received ==> 0 < c.received[r] <= |LogOf(logs, r)|)
    && (c.only.Some? ==>
          && IsStretch(c.seen, c.only.value, LogOf(logs, c.only.value), c.fromSeq, NextFromSeq(c))
          && (base.Some? ==> Expected(c, base.value, c.only.value) == NextFromSeq(c)))
    && (c.only.None? ==> InOrder(c))
  }

  /** What the connection, if there is one, was asked to start from. */
  function Base(session: Option<Session>): Option<nat>
  {
    if session.None? then None else Some(session.value.fromSeq)
  }

  ghost predicate SessionInvariant(sys: System)
    requires Pending(sys)
  {
    sys.session.Some? ==>
      && SessionShape(sys.session.value, sys.client)
      && forall r ::
           RunInvariant(sys.session.value, sys.client, r, LogOf(sys.logs, r), SentLen(sys, r))
  }

  ghost predicate Invariant(sys: System)
  {
    && LogsCount(sys.logs) && Pending(sys)
    && ClientInvariant(sys.logs, sys.client, Base(sys.session))
    && SessionInvariant(sys)
  }

  // ---------------------------------------------------------------- every step keeps it

  lemma TakeListingKeeps(
      s: Session, c: Client, known: set<RunId>, order: seq<RunId>, r: RunId, log: seq<Event>, sent: nat)
    requires SessionShape(s, c) && RunInvariant(s, c, r, log, sent)
    requires r !in known ==> log == []
    requires sent <= |log|
    ensures RunInvariant(TakeListing(s, known, order), c, r, log, sent)
  {
    var t := TakeListing(s, known, order);
    if s.phase.Listing? && t.phase.Reading? && s.only.None? {
      assert r in Members(order) <==> r in order;
    }
  }

  lemma BacklogIsStretch(r: RunId, log: seq<Event>, fromSeq: nat)
    ensures IsStretch(Backlog(r, log, fromSeq), r, log, fromSeq, fromSeq + |Backlog(r, log, fromSeq)|)
    ensures |log| <= fromSeq + |Backlog(r, log, fromSeq)|
  {
  }

  /** What the queue and the wire hold does not depend on the phase. */
  lemma OnlyPhase(s: Session, t: Session, c: Client, r: RunId, log: seq<Event>, sent: nat)
    requires t == s.(phase := t.phase)
    ensures QueueHolds(t, r, log, sent) == QueueHolds(s, r, log, sent)
    ensures WireHolds(t, c, r, log) == WireHolds(s, c, r, log)
    ensures MarksHold(t, c, r) == MarksHold(s, c, r)
  {
  }

  lemma TakeBacklogKeeps(s: Session, c: Client, logs: map<RunId, seq<Event>>, r: RunId, sent: nat)
    requires SessionShape(s, c) && RunInvariant(s, c, r, LogOf(logs, r), sent)
    requires sent <= |LogOf(logs, r)|
    ensures RunInvariant(TakeBacklog(s, logs), c, r, LogOf(logs, r), sent)
  {
    hide OfRun, FramesOf, IsStretch, Items, LogOf, QueueHolds, WireHolds, MarksHold;
    OnlyPhase(s, TakeBacklog(s, logs), c, r, LogOf(logs, r), sent);
    if s.phase.Reading? && s.phase.runs != [] {
      var head, rest := s.phase.runs[0], s.phase.runs[1..];
      assert s.phase.runs == [head] + rest;
      assert head in s.phase.runs && head !in rest;
      assert r in s.phase.runs <==> r == head || r in rest;
      BacklogIsStretch(head, LogOf(logs, head), s.fromSeq);
    }
  }

  lemma StretchTail(items: seq<Item>, r: RunId, log: seq<Event>, lo: nat, hi: nat)
    requires items != [] && IsStretch(items, r, log, lo, hi)
    ensures lo < |log| && items[0] == Item(r, log[lo]) && IsStretch(items[1..], r, log, lo + 1, hi)
  {
  }

  lemma StretchSnoc(items: seq<Item>, r: RunId, log: seq<Event>, lo: nat, hi: nat)
    requires IsStretch(items, r, log, lo, hi) && hi < |log|
    ensures IsStretch(items + [Item(r, log[hi])], r, log, lo, hi + 1)
  {
  }

  lemma FrameKeepsMarks(s: Session, t: Session, c: Client, r: RunId, f: Frame)
    requires MarksHold(s, c, r) && t.wire == s.wire + [f] && t.fromSeq == s.fromSeq
    requires f.CaughtUpFrame? && f.run == r ==> f.atSeq == Before(Expected(c, s.fromSeq, r) + |FramesOf(s.wire, r)|)
    ensures MarksHold(t, c, r)
  {
    assert t.wire[..|s.wire|] == s.wire;
    forall i | 0 <= i < |s.wire| ensures t.wire[..i] == s.wire[..i] && t.wire[i] == s.wire[i] {}
  }

  lemma PushKeepsWire(s: Session, c: Client, item: Item, r: RunId, log: seq<Event>)
    requires WireHolds(s, c, r, log)
    requires Relevant(s, item.run)
    requires item.run == r ==> item.event.seqNo == NextUp(s, r) < |log| && item.event == log[NextUp(s, r)]
    ensures WireHolds(Push(s, item), c, r, log)
    ensures NextUp(Push(s, item), r) == NextUp(s, r) + if item.run == r then 1 else 0
  {
    hide FramesOf, IsStretch;
    FramesOfAppend(s.wire, EventFrame(item), r);
    if item.run == r {
      StretchSnoc(FramesOf(s.wire, r), r, log, Expected(c, s.fromSeq, r), NextUp(s, r));
    }
  }

  /** The backlog being sent is of one run. */
  predicate BacklogOfOneRun(s: Session)
  {
    s.phase.Sending? ==> forall i :: 0 <= i < |s.phase.todo| ==> s.phase.todo[i].run == s.phase.run
  }

  lemma SendOneKeeps(s: Session, c: Client, r: RunId, log: seq<Event>, sent: nat)
    requires SessionShape(s, c) && RunInvariant(s, c, r, log, sent)
    requires forall i :: 0 <= i < |log| ==> log[i].seqNo == i
    requires s.phase.Sending? ==> Relevant(s, s.phase.run)
    requires BacklogOfOneRun(s)
    ensures RunInvariant(SendOne(s), c, r, log, sent)
  {
    hide OfRun, FramesOf, IsStretch, SessionShape;
    if s.phase.Sending? {
      if s.phase.todo != [] {
        SendsBacklogItem(s, c, r, log, sent);
      } else {
        SendsMark(s, c, r, log, sent);
      }
    }
  }

  lemma SendsMark(s: Session, c: Client, r: RunId, log: seq<Event>, sent: nat)
    requires RunInvariant(s, c, r, log, sent)
    requires s.phase.Sending? && s.phase.todo == [] && Relevant(s, s.phase.run)
    ensures RunInvariant(SendOne(s), c, r, log, sent)
  {
    hide OfRun, FramesOf, MarksHold;
    var t := SendOne(s);
    var mark := t.wire[|s.wire|];
    FramesOfAppend(s.wire, mark, r);
    assert IsSending(s, r) ==> NextAfterBacklog(s, r) == NextUp(s, r);
    if Relevant(s, r) {
      FrameKeepsMarks(s, t, c, r, mark);
    }
  }

  lemma SendsBacklogItem(s: Session, c: Client, r: RunId, log: seq<Event>, sent: nat)
    requires RunInvariant(s, c, r, log, sent)
    requires forall i :: 0 <= i < |log| ==> log[i].seqNo == i
    requires s.phase.Sending? && s.phase.todo != [] && Relevant(s, s.phase.run)
    requires BacklogOfOneRun(s)
    ensures RunInvariant(SendOne(s), c, r, log, sent)
  {
    hide OfRun, FramesOf, IsStretch;
    var t, item := SendOne(s), s.phase.todo[0];
    if item.run == r {
      StretchTail(s.phase.todo, r, log, NextUp(s, r), NextAfterBacklog(s, r));
    }
    PushKeepsWire(s, c, item, r, log);
    if Relevant(s, r) {
      FrameKeepsMarks(s, t, c, r, EventFrame(item));
    }
    assert WireHolds(t, c, r, log) by {
      assert t.lastSent == Push(s, item).lastSent && t.wire == Push(s, item).wire;
    }
    assert NextAfterBacklog(t, r) == NextAfterBacklog(s, r);
  }

  lemma OfRunTail(items: seq<Item>, r: RunId)
    requires items != []
    ensures if items[0].run == r then
              OfRun(items, r) != [] && OfRun(items, r)[0] == items[0] && OfRun(items, r)[1..] == OfRun(items[1..], r)
            else OfRun(items, r) == OfRun(items[1..], r)
  {
  }

  lemma ForwardOneKeeps(s: Session, c: Client, r: RunId, log: seq<Event>, sent: nat)
    requires SessionShape(s, c) && RunInvariant(s, c, r, log, sent)
    requires forall i :: 0 <= i < |log| ==> log[i].seqNo == i
    requires sent <= |log|
    ensures RunInvariant(ForwardOne(s), c, r, log, sent)
  {
    hide IsStretch, FramesOf, OfRun;
    if s.phase.Draining? && s.queue != [] {
      var item := s.queue[0];
      OfRunTail(s.queue, r);
      if item.run == r {
        StretchTail(OfRun(s.queue, r), r, log, sent - |OfRun(s.queue, r)|, sent);
      }
      if Wanted(s, item) {
        PushKeepsWire(s, c, item, r, log);
        if Relevant(s, r) {
          FrameKeepsMarks(s, ForwardOne(s), c, r, EventFrame(item));
        }
      }
    }
  }

  lemma ServerShape(s: Session, c: Client, logs: map<RunId, seq<Event>>, a: Action)
    requires SessionShape(s, c)
    ensures SessionShape(ServerStep(logs, s, a), c)
  {
    hide Backlog, LogOf, Wanted;
    if a.ReadBacklog? && s.phase.Reading? && s.phase.runs != [] {
      assert forall x :: x in s.phase.runs[1..] ==> x in s.phase.runs;
    }
  }

  lemma ServerStepKeeps(sys: System, s: Session, a: Action, r: RunId)
    requires LogsCount(sys.logs) && Pending(sys) && sys.session == Some(s)
    requires SessionInvariant(sys)
    ensures RunInvariant(ServerStep(sys.logs, s, a), sys.client, r, LogOf(sys.logs, r), SentLen(sys, r))
  {
    hide OfRun, FramesOf;
    var log, sent := LogOf(sys.logs, r), SentLen(sys, r);
    assert RunInvariant(s, sys.client, r, log, sent);
    match a
    case Subscribe =>
      StartListingKeeps(s, sys.client, r, log, sent);
    case ListRuns(order) =>
      TakeListingKeeps(s, sys.client, sys.logs.Keys, order, r, log, sent);
    case ReadBacklog =>
      TakeBacklogKeeps(s, sys.client, sys.logs, r, sent);
    case SendBacklog =>
      if s.phase.Sending? {
        var q := s.phase.run;
        assert RunInvariant(s, sys.client, q, LogOf(sys.logs, q), SentLen(sys, q));
      }
      SendOneKeeps(s, sys.client, r, log, sent);
    case Forward =>
      ForwardOneKeeps(s, sys.client, r, log, sent);
    case HangUp =>
    case _ =>
  }

  lemma StartListingKeeps(s: Session, c: Client, r: RunId, log: seq<Event>, sent: nat)
    requires SessionShape(s, c) && RunInvariant(s, c, r, log, sent) && sent <= |log|
    ensures RunInvariant(StartListing(s), c, r, log, sent)
  {
  }

  lemma AppendKeeps(sys: System, a: Action)
    requires Invariant(sys) && a.Append?
    ensures Invariant(Step(sys, a))
  {
    hide OfRun, FramesOf;
    var next := Step(sys, a);
    forall r ensures LogOf(sys.logs, r) <= LogOf(next.logs, r) {}
    AppendKeepsClient(sys.logs, next.logs, sys.client, Base(sys.session));
    if sys.session.Some? {
      var s := sys.session.value;
      forall r ensures RunInvariant(s, sys.client, r, LogOf(next.logs, r), SentLen(next, r)) {
        assert RunInvariant(s, sys.client, r, LogOf(sys.logs, r), SentLen(sys, r));
        LongerLogKeeps(s, sys.client, r, LogOf(sys.logs, r), LogOf(next.logs, r), SentLen(sys, r));
      }
    }
  }

  lemma LongerLogKeeps(s: Session, c: Client, r: RunId, log: seq<Event>, longer: seq<Event>, sent: nat)
    requires RunInvariant(s, c, r, log, sent) && log <= longer
    ensures RunInvariant(s, c, r, longer, sent)
  {
    hide OfRun, FramesOf;
  }

  lemma AppendKeepsClient(
      logs: map<RunId, seq<Event>>, longer: map<RunId, seq<Event>>, c: Client, base: Option<nat>)
    requires ClientInvariant(logs, c, base)
    requires forall r :: LogOf(logs, r) <= LogOf(longer, r)
    ensures ClientInvariant(longer, c, base)
  {
    hide InOrder, LogOf;
  }

  lemma QueueGrows(s: Session, c: Client, r: RunId, log: seq<Event>, sent: nat, item: Item)
    requires Listening(s) && RunInvariant(s, c, r, log, sent)
    requires item.run == r ==> sent + 1 == |log| && item == Item(r, log[sent])
    ensures RunInvariant(s.(queue := s.queue + [item]), c, r, log, if item.run == r then sent + 1 else sent)
  {
    hide OfRun, FramesOf, IsStretch;
    OfRunAppend(s.queue, item, r);
    if item.run == r {
      StretchSnoc(OfRun(s.queue, r), r, log, sent - |OfRun(s.queue, r)|, sent);
    }
  }

  /** The broadcast reaches everyone who has subscribed by now. */
  lemma BroadcastKeeps(sys: System)
    requires Invariant(sys)
    ensures Invariant(Step(sys, Broadcast))
  {
    hide OfRun, FramesOf, RunInvariant;
    var next := Step(sys, Broadcast);
    if sys.session.Some? && sys.unsent.Some? && Listening(sys.session.value) {
      forall r
        ensures RunInvariant(next.session.value, sys.client, r, LogOf(next.logs, r), SentLen(next, r))
      {
        QueueGrows(sys.session.value, sys.client, r, LogOf(sys.logs, r), SentLen(sys, r), sys.unsent.value);
      }
    } else if sys.session.Some? && sys.unsent.Some? {
      forall r
        ensures RunInvariant(next.session.value, sys.client, r, LogOf(next.logs, r), SentLen(next, r))
      {
        UnheardKeeps(sys.session.value, sys.client, r, LogOf(sys.logs, r), SentLen(sys, r), SentLen(next, r));
      }
    }
  }

  lemma UnheardKeeps(s: Session, c: Client, r: RunId, log: seq<Event>, sent: nat, later: nat)
    requires RunInvariant(s, c, r, log, sent) && !Listening(s)
    ensures RunInvariant(s, c, r, log, later)
  {
  }

  lemma CloseKeeps(s: Session, c: Client, r: RunId, log: seq<Event>, sent: nat, later: nat)
    requires RunInvariant(s, c, r, log, sent)
    ensures RunInvariant(Close(s), c, r, log, later)
  {
  }

  lemma CrashKeeps(sys: System)
    requires Invariant(sys)
    ensures Invariant(Step(sys, Crash))
  {
    hide OfRun, FramesOf;
    var next := Step(sys, Crash);
    if sys.session.Some? {
      var s := sys.session.value;
      forall r ensures RunInvariant(Close(s), sys.client, r, LogOf(next.logs, r), SentLen(next, r)) {
        CloseKeeps(s, sys.client, r, LogOf(sys.logs, r), SentLen(sys, r), SentLen(next, r));
      }
    }
  }

  lemma ConnectKeeps(sys: System)
    requires Invariant(sys)
    ensures Invariant(Step(sys, Connect))
  {
  }

  /** The next frame is the next entry of its run. */
  lemma ReceiveKeepsRun(s: Session, c: Client, r: RunId, log: seq<Event>, sent: nat)
    requires RunInvariant(s, c, r, log, sent) && s.wire != []
    requires forall i :: 0 <= i < |log| ==> log[i].seqNo == i
    ensures RunInvariant(s.(wire := s.wire[1..]), ReceiveFrame(c, s.wire[0]), r, log, sent)
    ensures s.wire[0].EventFrame? && s.wire[0].item.run == r ==>
              && Relevant(s, r)
              && var event := s.wire[0].item.event;
              event.seqNo == Expected(c, s.fromSeq, r) < |log| && event == log[event.seqNo]
  {
    hide IsStretch, OfRun, MarksHold;
    var f := s.wire[0];
    if f.EventFrame? && f.item.run == r {
      assert FramesOf(s.wire, r)[0] == f.item;
      assert FramesOf(s.wire, r)[1..] == FramesOf(s.wire[1..], r);
      StretchTail(FramesOf(s.wire, r), r, log, Expected(c, s.fromSeq, r), NextUp(s, r));
    }
    if Relevant(s, r) {
      ReceiveKeepsMarks(s, c, r);
    }
  }

  lemma ReceiveKeepsMarks(s: Session, c: Client, r: RunId)
    requires MarksHold(s, c, r) && s.wire != []
    requires s.wire[0].EventFrame? && s.wire[0].item.run == r ==>
      s.wire[0].item.event.seqNo == Expected(c, s.fromSeq, r)
    ensures MarksHold(s.(wire := s.wire[1..]), ReceiveFrame(c, s.wire[0]), r)
  {
    var rest := s.wire[1..];
    forall i | 0 <= i < |rest| && rest[i].CaughtUpFrame? && rest[i].run == r
      ensures rest[i].atSeq
           == Before(Expected(ReceiveFrame(c, s.wire[0]), s.fromSeq, r) + |FramesOf(rest[..i], r)|)
    {
      assert s.wire[i + 1] == rest[i] && s.wire[..i + 1][1..] == rest[..i];
    }
  }

  lemma ReceiveKeepsClient(
      logs: map<RunId, seq<Event>>, c: Client, s: Session, item: Item)
    requires ClientInvariant(logs, c, Some(s.fromSeq)) && s.only == c.only && (s.only.None? ==> s.fromSeq == 0)
    requires Relevant(s, item.run) && InLog(logs, item)
    requires item.event.seqNo == Expected(c, s.fromSeq, item.run)
    ensures ClientInvariant(logs, ReceiveFrame(c, EventFrame(item)), Some(s.fromSeq))
  {
    hide InOrder;
    if c.only.None? {
      ReceiveKeepsOrder(c, item);
    }
  }

  lemma ReceiveKeepsOrder(c: Client, item: Item)
    requires InOrder(c)
    requires item.event.seqNo == if item.run in c.received then c.received[item.run] else 0
    ensures InOrder(ReceiveFrame(c, EventFrame(item)))
  {
    var d, k := ReceiveFrame(c, EventFrame(item)), item.event.seqNo;
    forall i | 0 <= i < |d.seen| && d.seen[i].event.seqNo > 0
      ensures Holds(d.seen[..i], d.seen[i].run, d.seen[i].event.seqNo - 1)
    {
      if i < |c.seen| {
        assert d.seen[..i] == c.seen[..i];
      } else {
        assert d.seen[..i] == c.seen;
      }
    }
    forall q, j | q in d.received && 0 <= j < d.received[q] ensures Holds(d.seen, q, j) {
      if q == item.run && j == k {
        assert d.seen[|c.seen|] == item;
      } else {
        assert Holds(c.seen, q, j);
        var i :| 0 <= i < |c.seen| && c.seen[i].run == q && c.seen[i].event.seqNo == j;
        assert d.seen[i] == c.seen[i];
      }
    }
  }

  lemma ReceiveKeeps(sys: System)
    requires Invariant(sys)
    ensures Invariant(Step(sys, Receive))
  {
    hide OfRun, FramesOf, RunInvariant, ClientInvariant;
    if sys.session.Some? && sys.session.value.wire != [] {
      var s, f := sys.session.value, sys.session.value.wire[0];
      forall r
        ensures RunInvariant(
                  s.(wire := s.wire[1..]), ReceiveFrame(sys.client, f), r, LogOf(sys.logs, r), SentLen(sys, r))
      {
        ReceiveKeepsRun(s, sys.client, r, LogOf(sys.logs, r), SentLen(sys, r));
      }
      if f.EventFrame? {
        var r := f.item.run;
        ReceiveKeepsRun(s, sys.client, r, LogOf(sys.logs, r), SentLen(sys, r));
        ReceiveKeepsClient(sys.logs, sys.client, s, f.item);
      }
    }
  }

  lemma StepKeeps(sys: System, a: Action)
    requires Invariant(sys)
    ensures Invariant(Step(sys, a))
  {
    hide RunInvariant, SessionShape, InOrder, IsStretch;
    match a
    case Append(_, _, _, _) => AppendKeeps(sys, a);
    case Broadcast => BroadcastKeeps(sys);
    case Crash => CrashKeeps(sys);
    case Connect => ConnectKeeps(sys);
    case Drop =>
    case Receive => ReceiveKeeps(sys);
    case _ =>
      if sys.session.Some? {
        var s := sys.session.value;
        ServerShape(s, sys.client, sys.logs, a);
        forall r
          ensures RunInvariant(ServerStep(sys.logs, s, a), sys.client, r, LogOf(sys.logs, r), SentLen(sys, r))
        {
          ServerStepKeeps(sys, s, a, r);
        }
      }
  }

  lemma {:induction false} InvariantHolds(start: System, actions: seq<Action>)
    requires Initial(start)
    ensures Invariant(Exec(start, actions))
  {
    if actions != [] {
      InvariantHolds(start, actions[..|actions| - 1]);
      StepKeeps(Exec(start, actions[..|actions| - 1]), actions[|actions| - 1]);
    }
  }

  // ---------------------------------------------------------------- what the client can rely on

  /**
   * Exactly once, in order, without a gap: whatever the interleaving, what a subscriber to one
   * run has been handed is a stretch of that run's log beginning where it asked to begin.
   */
  lemma DeliveredOnceInOrder(start: System, actions: seq<Action>)
    requires Initial(start) && start.client.only.Some?
    ensures
      var end, r, from := Exec(start, actions), start.client.only.value, start.client.fromSeq;
      && |end.client.seen| <= (if from <= |LogOf(end.logs, r)| then |LogOf(end.logs, r)| - from else 0)
      && forall i :: 0 <= i < |end.client.seen| ==> end.client.seen[i] == Item(r, LogOf(end.logs, r)[from + i])
  {
    InvariantHolds(start, actions);
    ClientIsFixed(start, actions);
  }

  lemma {:induction false} ClientIsFixed(start: System, actions: seq<Action>)
    ensures Exec(start, actions).client.only == start.client.only
    ensures Exec(start, actions).client.fromSeq == start.client.fromSeq
  {
    if actions != [] {
      ClientIsFixed(start, actions[..|actions| - 1]);
    }
  }

  /**
   * The server's caught-up mark is true. A subscriber to one run that reads it has been handed that
   * run from where it asked to begin up to the mark, and no more; a subscriber to every run holds
   * all of that run's events up to the mark. A run that brought nothing is marked just before where
   * it was asked for.
   */
  lemma CaughtUpIsTrue(start: System, actions: seq<Action>)
    requires Initial(start) && Exec(start, actions).session.Some? && Exec(start, actions).session.value.wire != []
    ensures
      var end := Exec(start, actions);
      var mark := end.session.value.wire[0];
      mark.CaughtUpFrame? ==>
        match start.client.only
        case Some(r) =>
          mark.run == r ==>
            var next := start.client.fromSeq + |end.client.seen|;
            mark.atSeq == if next > 0 then next - 1 else 0
        case None =>
          && (mark.run in end.client.received ==>
                forall k :: 0 <= k <= mark.atSeq ==> Holds(end.client.seen, mark.run, k))
          && (mark.run !in end.client.received ==> mark.atSeq == 0)
  {
    hide IsStretch, OfRun, GapFree, Holds;
    InvariantHolds(start, actions);
    ClientIsFixed(start, actions);
    var end := Exec(start, actions);
    var s, mark := end.session.value, end.session.value.wire[0];
    if mark.CaughtUpFrame? && Relevant(s, mark.run) {
      assert RunInvariant(s, end.client, mark.run, LogOf(end.logs, mark.run), SentLen(end, mark.run));
      assert FramesOf(s.wire[..0], mark.run) == [];
      if end.client.only.Some? {
        SeenIsCounted(end);
      }
    }
  }

  /** A subscriber to one run has been handed as many events as it has moved on by. */
  lemma SeenIsCounted(sys: System)
    requires Invariant(sys) && sys.client.only.Some?
    ensures NextFromSeq(sys.client) == sys.client.fromSeq + |sys.client.seen|
  {
  }

  /** Nothing is on its way: the live loop has caught up and the wire is empty. */
  predicate Quiet(sys: System)
  {
    && sys.unsent.None? && sys.session.Some?
    && sys.session.value.phase.Draining? && sys.session.value.queue == [] && sys.session.value.wire == []
  }

  /** And whenever nothing is on its way, nothing is missing. */
  lemma QuietMeansComplete(start: System, actions: seq<Action>)
    requires Initial(start) && Quiet(Exec(start, actions))
    ensures
      var end, from := Exec(start, actions), start.client.fromSeq;
      match start.client.only
      case Some(r) =>
        var log := LogOf(end.logs, r);
        && |end.client.seen| == (if from <= |log| then |log| - from else 0)
        && forall i :: 0 <= i < |end.client.seen| ==> end.client.seen[i] == Item(r, log[from + i])
      case None =>
        forall r, k :: r in end.logs && 0 <= k < |end.logs[r]| ==> Item(r, end.logs[r][k]) in end.client.seen
  {
    hide GapFree, Holds, Quiet;
    var end := Exec(start, actions);
    InvariantHolds(start, actions);
    QuietHoldsAll(start, actions);
    ClientIsFixed(start, actions);
    if start.client.only.None? {
      forall r, k | r in end.logs && 0 <= k < |end.logs[r]| ensures Item(r, end.logs[r][k]) in end.client.seen {
        HeldIsSeen(end, r, k);
      }
    }
  }

  lemma QuietHoldsAll(start: System, actions: seq<Action>)
    requires Initial(start) && Quiet(Exec(start, actions))
    ensures
      var end, from := Exec(start, actions), start.client.fromSeq;
      match start.client.only
      case Some(r) => end.client.seen == Backlog(r, LogOf(end.logs, r), from)
      case None => forall r, k :: 0 <= k < |LogOf(end.logs, r)| ==> Holds(end.client.seen, r, k)
  {
    hide GapFree, Holds;
    var end := Exec(start, actions);
    InvariantHolds(start, actions);
    ClientIsFixed(start, actions);
    forall r ensures RunInvariant(end.session.value, end.client, r, LogOf(end.logs, r), SentLen(end, r)) {}
    forall r | Relevant(end.session.value, r)
      ensures |LogOf(end.logs, r)| <= Expected(end.client, end.session.value.fromSeq, r)
    {
      assert RunInvariant(end.session.value, end.client, r, LogOf(end.logs, r), SentLen(end, r));
    }
  }

  /** What a subscriber to every run holds is the entry of the log itself. */
  lemma HeldIsSeen(sys: System, r: RunId, k: nat)
    requires Invariant(sys) && r in sys.logs && k < |sys.logs[r]| && Holds(sys.client.seen, r, k)
    ensures Item(r, sys.logs[r][k]) in sys.client.seen
  {
    var seen := sys.client.seen;
    var i :| 0 <= i < |seen| && seen[i].run == r && seen[i].event.seqNo == k;
    assert InLog(sys.logs, seen[i]);
  }

  /**
   * A subscriber to every run sees each run from its first event on, with no event before its
   * predecessor, and only what the logs hold. Reconnecting repeats events, never skips any.
   */
  lemma DeliveredInRunOrder(start: System, actions: seq<Action>)
    requires Initial(start) && start.client.only.None?
    ensures
      var end := Exec(start, actions);
      var seen := end.client.seen;
      && (forall i :: 0 <= i < |seen| ==>
            && seen[i].run in end.logs && seen[i].event.seqNo < |end.logs[seen[i].run]|
            && seen[i].event == end.logs[seen[i].run][seen[i].event.seqNo])
      && (forall i :: 0 <= i < |seen| && seen[i].event.seqNo > 0 ==>
            exists j :: 0 <= j < i && seen[j].run == seen[i].run && seen[j].event.seqNo == seen[i].event.seqNo - 1)
  {
    DeliveredGapFree(start, actions);
    var seen := Exec(start, actions).client.seen;
    forall i | 0 <= i < |seen| && seen[i].event.seqNo > 0
      ensures exists j :: 0 <= j < i && seen[j].run == seen[i].run && seen[j].event.seqNo == seen[i].event.seqNo - 1
    {
      assert Holds(seen[..i], seen[i].run, seen[i].event.seqNo - 1);
      var j :| 0 <= j < i && seen[..i][j].run == seen[i].run && seen[..i][j].event.seqNo == seen[i].event.seqNo - 1;
      assert seen[j] == seen[..i][j];
    }
  }

  lemma DeliveredGapFree(start: System, actions: seq<Action>)
    requires Initial(start) && start.client.only.None?
    ensures
      var end := Exec(start, actions);
      GapFree(end.client.seen) && forall i :: 0 <= i < |end.client.seen| ==> InLog(end.logs, end.client.seen[i])
  {
    InvariantHolds(start, actions);
    ClientIsFixed(start, actions);
  }

  /** The logs only grow, entry after entry, whatever else happens. */
  lemma {:induction false} LogsOnlyGrow(start: System, actions: seq<Action>, r: RunId)
    requires Initial(start)
    ensures var end := Exec(start, actions);
      && (r in start.logs ==> r in end.logs && start.logs[r] <= end.logs[r])
      && (r in end.logs ==> forall k :: 0 <= k < |end.logs[r]| ==> end.logs[r][k].seqNo == k)
  {
    hide Invariant;
    if actions != [] {
      LogsOnlyGrow(start, actions[..|actions| - 1], r);
    }
  }

  // ---------------------------------------------------------------- nothing gets stuck

  lemma {:induction false} ExecConcat(sys: System, a: seq<Action>, b: seq<Action>)
    ensures Exec(sys, a + b) == Exec(Exec(sys, a), b)
    decreases |b|
  {
    if b == [] {
      assert a + b == a;
    } else {
      ExecConcat(sys, a, b[..|b| - 1]);
      assert (a + b)[..|a + b| - 1] == a + b[..|b| - 1];
    }
  }

  /** A session past its listing, with nothing left unsent. */
  predicate Rolling(sys: System)
  {
    && sys.unsent.None? && sys.session.Some?
    && (sys.session.value.phase.Reading? || sys.session.value.phase.Sending? || sys.session.value.phase.Draining?)
  }

  function BacklogsLeft(p: Phase): nat
  {
    match p
    case Reading(runs) => 2 * |runs| + 1
    case Sending(_, _, rest) => 2 * |rest| + 2
    case _ => 0
  }

  function ItemsLeft(p: Phase): nat
  {
    if p.Sending? then |p.todo| else 0
  }

  /** A step that gets a rolling session on. */
  function NextStep(s: Session): Action
  {
    if s.wire != [] then Receive
    else if s.phase.Reading? then ReadBacklog
    else if s.phase.Sending? then SendBacklog
    else Forward
  }

  lemma {:induction false} Settles(sys: System) returns (actions: seq<Action>)
    requires Rolling(sys)
    ensures Quiet(Exec(sys, actions)) && Exec(sys, actions).logs == sys.logs
    decreases BacklogsLeft(sys.session.value.phase), ItemsLeft(sys.session.value.phase),
              |sys.session.value.queue|, |sys.session.value.wire|
  {
    if Quiet(sys) {
      actions := [];
    } else {
      var step := NextStep(sys.session.value);
      var rest := Settles(Step(sys, step));
      actions := [step] + rest;
      assert [step][..0] == [];
      ExecConcat(sys, [step], rest);
    }
  }

  lemma {:induction false} OrderOf(ids: set<RunId>) returns (order: seq<RunId>)
    ensures NoDuplicates(order) && Members(order) == ids
    decreases |ids|
  {
    if ids == {} {
      order := [];
    } else {
      var r :| r in ids;
      var rest := OrderOf(ids - {r});
      order := [r] + rest;
      assert r !in Members(rest);
      assert Members(order) == Members(rest) + {r};
    }
  }

  /** From any state a fresh connection can be rolling. */
  lemma Reconnects(sys: System) returns (actions: seq<Action>)
    ensures Rolling(Exec(sys, actions)) && Exec(sys, actions).logs == sys.logs
  {
    var order := OrderOf(sys.logs.Keys);
    actions := [Broadcast, Drop, Connect, Subscribe, ListRuns(order)];
    var a1, a2, a3, a4 := actions[..1], actions[..2], actions[..3], actions[..4];
    assert a1[..0] == [] && a2[..1] == a1 && a3[..2] == a2 && a4[..3] == a3;
    assert Exec(sys, a1) == Step(sys, Broadcast);
    assert Exec(sys, a2) == Step(Exec(sys, a1), Drop);
    assert Exec(sys, a3) == Step(Exec(sys, a2), Connect);
    assert Exec(sys, a4) == Step(Exec(sys, a3), Subscribe);
    assert Exec(sys, actions) == Step(Exec(sys, a4), ListRuns(order));
  }

  /** Whatever has happened so far, the client can still get everything: the system has steps left
      that lead to quiet with the logs as they are. */
  lemma CanAlwaysCatchUp(start: System, sofar: seq<Action>) returns (more: seq<Action>)
    requires Initial(start)
    ensures Quiet(Exec(start, sofar + more)) && Exec(start, sofar + more).logs == Exec(start, sofar).logs
    ensures
      var end := Exec(start, sofar + more);
      match start.client.only
      case Some(r) =>
        var (log, from) := (LogOf(end.logs, r), start.client.fromSeq);
        && |end.client.seen| == (if from <= |log| then |log| - from else 0)
        && forall i :: 0 <= i < |end.client.seen| ==> end.client.seen[i] == Item(r, log[from + i])
      case None =>
        forall r, k :: r in end.logs && 0 <= k < |end.logs[r]| ==> Item(r, end.logs[r][k]) in end.client.seen
  {
    hide Quiet, Rolling, Step, Holds;
    var sys := Exec(start, sofar);
    var connect := Reconnects(sys);
    var settle := Settles(Exec(sys, connect));
    more := connect + settle;
    ExecConcat(sys, connect, settle);
    ExecConcat(start, sofar, more);
    QuietMeansComplete(start, sofar + more);
  }
}
