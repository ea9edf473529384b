/**
 * The scheduler: sweeps over the due triggers, each firing started as a run. The runs themselves,
 * and whether an earlier one is still active, are arbitrary.
 */
module Scheduler {
  import opened Protocol
  import opened Triggers

  datatype TriggerId = TriggerId(text: string)

  datatype TriggerRecord = TriggerRecord(
    name: string, intent: string, spec: TriggerSpec, paused: bool, hookSecret: Option<string>,
    nextFireMs: Option<nat>, lastRunId: Option<RunId>, lastFiredMs: Option<nat>)

  datatype FireError = UnknownTrigger | TriggerPaused | TriggerBusy | RunFault
  datatype SaveError = BlankText | BadSpec(message: string) | NoSuchTrigger | StoreFault

  // One successful firing: which deadline it answered, and when.
  datatype Firing = Firing(id: TriggerId, spec: TriggerSpec, deadline: Option<nat>, now: nat)

  // What the world answers when one trigger is fired: the id its run gets, whether an earlier run
  // is still active, and whether the new run could be started.
  datatype Answer = Answer(runId: RunId, active: bool, started: bool)

  // What happens to the scheduler: a tick of its clock, or a human's request about a trigger.
  datatype Deed =
    | Tick(now: nat)
    | New(id: TriggerId, name: string, intent: string, spec: TriggerSpec, paused: Option<bool>, at: nat)
    | Change(id: TriggerId, name: string, intent: string, spec: TriggerSpec, paused: Option<bool>, at: nat)

  predicate IsDue(rec: TriggerRecord, now: nat)
  {
    !rec.paused && rec.nextFireMs.Some? && rec.nextFireMs.value <= now
  }

  /** The deadline a firing at `now` leaves: none, one interval on, or the first slot after now. */
  ghost predicate NextAfterFiring(spec: TriggerSpec, next: Option<nat>, now: nat)
  {
    match spec
    case Once(_) => next == None
    case Webhook => next == None
    case Interval(every) => next == Some(now + every)
    case _ => next.Some? && IsFirstSlot(spec, now + 1, next.value)
  }

  /** What later firings rely on: the deadline lies past `now`, and an interval past it. */
  predicate MovedPast(spec: TriggerSpec, next: Option<nat>, now: nat)
  {
    && ((spec.Once? || spec.Webhook?) <==> next.None?)
    && (next.Some? ==> now < next.value)
    && (spec.Interval? && next.Some? ==> now + spec.everyMs <= next.value)
  }

  /** A stored trigger has a valid spec, a deadline unless its kind can be without one, and a secret
      exactly when it is fired by one. */
  predicate WellKept(rec: TriggerRecord)
  {
    && ValidateSpec(rec.spec).Ok?
    && (rec.spec.Once? || rec.spec.Webhook? || rec.nextFireMs.Some?)
    && (rec.hookSecret.Some? <==> rec.spec.Webhook?)
  }

  // ---------------------------------------------------------------- names and their order

  predicate IsSpace(c: char)
  {
    || '\t' <= c <= '\r' || c in [' ', '\U{85}', '\U{A0}', '\U{1680}', '\U{2028}', '\U{2029}', '\U{202F}']
    || '\U{2000}' <= c <= '\U{200A}' || c in ['\U{205F}', '\U{3000}']
  }

  /** A text without the white space around it. */
  function Trim(text: string): string
  {
    if text == "" then ""
    else if IsSpace(text[0]) then Trim(text[1..])
    else if IsSpace(text[|text| - 1]) then Trim(text[..|text| - 1])
    else text
  }

  predicate IsBlank(text: string)
  {
    forall c :: c in text ==> IsSpace(c)
  }

  lemma {:induction false} BlankIsTrimmedAway(text: string)
    ensures Trim(text) == "" <==> IsBlank(text)
    decreases |text|
  {
    if text != "" {
      var n := |text| - 1;
      assert text[0] in text && text[n] in text;
      assert text == [text[0]] + text[1..] && text == text[..n] + [text[n]];
      if IsSpace(text[0]) {
        BlankIsTrimmedAway(text[1..]);
      } else if IsSpace(text[n]) {
        BlankIsTrimmedAway(text[..n]);
      }
    }
  }

  /** White space is the characters Unicode lists as such. */
  lemma SpacesAreUnicodes(c: char)
    ensures IsSpace(c) <==> c as int in {
      0x09, 0x0A, 0x0B, 0x0C, 0x0D, 0x20, 0x85, 0xA0, 0x1680, 0x2000, 0x2001, 0x2002, 0x2003, 0x2004, 0x2005, 0x2006,
      0x2007, 0x2008, 0x2009, 0x200A, 0x2028, 0x2029, 0x202F, 0x205F, 0x3000}
  {
  }

  /** Trimming takes away exactly the white space around a text: what is left begins and ends with
      something else, and what was taken is white space. */
  lemma {:induction false} TrimIsExact(text: string) returns (lead: string, tail: string)
    ensures text == lead + Trim(text) + tail && IsBlank(lead) && IsBlank(tail)
    ensures Trim(text) != "" ==> !IsSpace(Trim(text)[0]) && !IsSpace(Trim(text)[|Trim(text)| - 1])
    decreases |text|
  {
    hide IsSpace, IsBlank;
    lead, tail := "", "";
    NoTextIsBlank();
    if text != "" {
      var n := |text| - 1;
      if IsSpace(text[0]) {
        lead, tail := TrimIsExact(text[1..]);
        assert text == [text[0]] + text[1..];
        MoreBlank(text[0], lead);
        lead := [text[0]] + lead;
      } else if IsSpace(text[n]) {
        lead, tail := TrimIsExact(text[..n]);
        assert text == text[..n] + [text[n]];
        MoreBlank(text[n], tail);
        tail := tail + [text[n]];
      }
    }
  }

  lemma NoTextIsBlank()
    ensures IsBlank("")
  {
  }

  lemma MoreBlank(c: char, text: string)
    requires IsSpace(c) && IsBlank(text)
    ensures IsBlank([c] + text) && IsBlank(text + [c])
  {
  }

  /** Texts in the order of their characters. */
  predicate TextAtMost(a: string, b: string)
  {
    a == "" || (b != "" && (a[0] < b[0] || (a[0] == b[0] && TextAtMost(a[1..], b[1..]))))
  }

  /** One text comes before another if it is a beginning of it, or smaller where they first differ. */
  lemma {:induction false} TextOrderIsExact(a: string, b: string)
    ensures TextAtMost(a, b) <==>
      a <= b || exists k :: 0 <= k < |a| && k < |b| && a[..k] == b[..k] && a[k] < b[k]
  {
    if a != "" && b != "" && a[0] == b[0] {
      TextOrderIsExact(a[1..], b[1..]);
      assert a == [a[0]] + a[1..] && b == [b[0]] + b[1..];
      if k :| 0 <= k < |a[1..]| && k < |b[1..]| && a[1..][..k] == b[1..][..k] && a[1..][k] < b[1..][k] {
        assert a[..k + 1] == [a[0]] + a[1..][..k] && b[..k + 1] == [b[0]] + b[1..][..k];
      }
      if k :| 0 <= k < |a| && k < |b| && a[..k] == b[..k] && a[k] < b[k] {
        assert k > 0 && a[1..][..k - 1] == a[..k][1..] && b[1..][..k - 1] == b[..k][1..];
      }
    } else if a != "" && b != "" && a[0] < b[0] {
      assert a[..0] == b[..0];
    } else if a != "" && b != "" {
      assert forall k :: 0 < k <= |a| && k <= |b| && a[..k] == b[..k] ==> a[..k][0] == b[..k][0];
    }
  }

  lemma {:induction false} TextOrderIsTotal(a: string, b: string)
    ensures TextAtMost(a, b) || TextAtMost(b, a)
    ensures TextAtMost(a, b) && TextAtMost(b, a) ==> a == b
  {
    if a != "" && b != "" && a[0] == b[0] {
      TextOrderIsTotal(a[1..], b[1..]);
      assert a == [a[0]] + a[1..] && b == [b[0]] + b[1..];
    }
  }

  lemma {:induction false} TextOrderIsTransitive(a: string, b: string, c: string)
    requires TextAtMost(a, b) && TextAtMost(b, c)
    ensures TextAtMost(a, c)
  {
    if a != "" && a[0] == b[0] == c[0] {
      TextOrderIsTransitive(a[1..], b[1..], c[1..]);
    }
  }

  /** The firings of all triggers but one. */
  ghost function FiringsOfOthers(fired: seq<Firing>, id: TriggerId): (rest: seq<Firing>)
    ensures forall f :: f in rest <==> f in fired && f.id != id
  {
    if fired == [] then []
    else
      var n := |fired| - 1;
      FiringsOfOthers(fired[..n], id) + if fired[n].id == id then [] else [fired[n]]
  }

  ghost predicate AllProgress(fired: seq<Firing>)
  {
    forall i, j :: 0 <= i < j < |fired| && fired[i].id == fired[j].id ==> Progresses(fired[i], fired[j])
  }

  lemma {:induction false} OthersStillProgress(fired: seq<Firing>, id: TriggerId)
    requires AllProgress(fired)
    ensures AllProgress(FiringsOfOthers(fired, id))
  {
    if fired != [] {
      hide Progresses;
      var n := |fired| - 1;
      OthersStillProgress(fired[..n], id);
      var init := FiringsOfOthers(fired[..n], id);
      forall i | 0 <= i < |init| && init[i].id == fired[n].id ensures Progresses(init[i], fired[n]) {
        assert init[i] in fired[..n];
      }
    }
  }

  /** What the scheduler keeps: well-kept triggers, each past all its firings, which are in order. */
  ghost predicate Kept(table: map<TriggerId, TriggerRecord>, fired: seq<Firing>)
  {
    && (forall id :: id in table ==> WellKept(table[id]))
    && (forall f :: f in fired ==> f.id in table && LeftBehind(f, table[f.id]))
    && AllProgress(fired)
  }

  lemma WellKeptIn(table: map<TriggerId, TriggerRecord>, fired: seq<Firing>, id: TriggerId)
    requires Kept(table, fired) && id in table
    ensures WellKept(table[id])
  {
  }

  /** A new spec forgets the firings under the old one. */
  lemma RearmedIsKept(table: map<TriggerId, TriggerRecord>, fired: seq<Firing>, id: TriggerId, rec: TriggerRecord)
    requires Kept(table, fired) && WellKept(rec)
    ensures Kept(table[id := rec], FiringsOfOthers(fired, id))
  {
    hide WellKept, LeftBehind, AllProgress;
    OthersStillProgress(fired, id);
  }

  /** A record with the same spec and deadline, or a trigger that never fired, may be replaced. */
  lemma RewrittenIsKept(table: map<TriggerId, TriggerRecord>, fired: seq<Firing>, id: TriggerId, rec: TriggerRecord)
    requires Kept(table, fired) && WellKept(rec)
    requires id in table ==> rec.spec == table[id].spec && rec.nextFireMs == table[id].nextFireMs
    ensures Kept(table[id := rec], fired)
  {
    hide WellKept, AllProgress;
  }

  /** The firing's trigger has moved on since. */
  predicate LeftBehind(f: Firing, rec: TriggerRecord)
  {
    rec.spec == f.spec && MovedPast(f.spec, rec.nextFireMs, f.now)
  }

  /** Two successful firings of one trigger, `f` before `g`. */
  predicate Progresses(f: Firing, g: Firing)
  {
    g.deadline.Some? ==>
      && f.now < g.deadline.value
      && !f.spec.Once?
      && (f.spec.Interval? ==> f.now + f.spec.everyMs <= g.deadline.value)
  }

  /** How a due trigger's record looks after its turn: untouched while its last run is active, only
      its run id noted when the run fails to start, else fired and moved past `now`. */
  ghost predicate Handled(was: TriggerRecord, rec: TriggerRecord, answer: Answer, now: nat)
  {
    if was.lastRunId.Some? && answer.active then rec == was
    else if !answer.started then rec == was.(lastRunId := Some(answer.runId))
    else
      && rec == was.(lastRunId := Some(answer.runId), lastFiredMs := Some(now), nextFireMs := rec.nextFireMs)
      && NextAfterFiring(was.spec, rec.nextFireMs, now)
  }

  predicate Fires(was: TriggerRecord, answer: Answer)
  {
    answer.started && !(was.lastRunId.Some? && answer.active)
  }

  class Scheduler {
    var table: map<TriggerId, TriggerRecord>
    ghost var fired: seq<Firing>

    ghost predicate Valid()
      reads this
    {
      Kept(table, fired)
    }

    constructor ()
      ensures Valid() && table == map[] && fired == []
    {
      table, fired := map[], [];
    }

    /** A new trigger is accepted only with a name, an intent and a spec that can fire. It waits for its
        first deadline, and gets a secret when that is what fires it. */
    method Create(id: TriggerId, name: string, intent: string, spec: TriggerSpec, paused: Option<bool>, now: nat)
      returns (r: Result<(), SaveError>)
      requires Valid() && id !in table
      modifies this
      ensures Valid() && fired == old(fired)
      ensures r == Err(BlankText) <==> IsBlank(name) || IsBlank(intent)
      ensures r.Err? && r.error.BadSpec? <==> !IsBlank(name) && !IsBlank(intent) && !CanFire(spec)
      ensures r.Err? ==> table == old(table) && !r.error.NoSuchTrigger?
      ensures r.Ok? ==>
        && id in table && table == old(table)[id := table[id]]
        && table[id] == TriggerRecord(Trim(name), Trim(intent), spec, paused == Some(true), table[id].hookSecret,
                                      table[id].nextFireMs, None, None)
        && IsNextFire(spec, now, table[id].nextFireMs)
    {
      var _ :- CheckedForSaving(name, intent, spec);
      var next := NextFire(spec, now);
      var secret: string := *;
      var saved: bool := *;
      if !saved {
        return Err(StoreFault);
      }
      var rec := TriggerRecord(Trim(name), Trim(intent), spec, paused.Some? && paused.value,
                               if spec.Webhook? then Some(secret) else None, next, None, None);
      RewrittenIsKept(table, fired, id, rec);
      table := table[id := rec];
      return Ok(());
    }

    method CheckedForSaving(name: string, intent: string, spec: TriggerSpec) returns (r: Result<(), SaveError>)
      ensures r.Ok? <==> !IsBlank(name) && !IsBlank(intent) && CanFire(spec)
      ensures r.Ok? <==> !IsBlank(name) && !IsBlank(intent) && ValidateSpec(spec).Ok?
      ensures r == Err(BlankText) <==> IsBlank(name) || IsBlank(intent)
      ensures r.Err? ==> r.error.BlankText? || r.error.BadSpec?
    {
      BlankIsTrimmedAway(name);
      BlankIsTrimmedAway(intent);
      ValidationIsExact(spec);
      if Trim(name) == "" || Trim(intent) == "" {
        return Err(BlankText);
      }
      var checked := ValidateSpec(spec);
      match checked
      case Err(message) => return Err(BadSpec(message));
      case Ok(_) => return Ok(());
    }

    /** Editing replaces texts and pause flag. Only a different spec arms the trigger anew, and then its
        earlier firings no longer bind it; with the spec it had, a fired once-trigger stays fired. */
    method Edit(id: TriggerId, name: string, intent: string, spec: TriggerSpec, paused: Option<bool>, now: nat)
      returns (r: Result<(), SaveError>)
      requires Valid()
      modifies this
      ensures Valid()
      ensures r == Err(BlankText) <==> IsBlank(name) || IsBlank(intent)
      ensures r.Err? && r.error.BadSpec? <==> !IsBlank(name) && !IsBlank(intent) && !CanFire(spec)
      ensures r.Err? ==> table == old(table) && fired == old(fired)
      ensures r.Err? && r.error.NoSuchTrigger? ==> id !in old(table)
      ensures r.Ok? ==>
        && id in old(table) && id in table && table == old(table)[id := table[id]]
        && var was, rec := old(table)[id], table[id];
           && rec == was.(name := Trim(name), intent := Trim(intent), spec := spec, hookSecret := rec.hookSecret,
                          paused := if paused.Some? then paused.value else was.paused, nextFireMs := rec.nextFireMs)
           && (spec == was.spec ==>
                 rec.nextFireMs == was.nextFireMs && rec.hookSecret == was.hookSecret && fired == old(fired))
           && (spec != was.spec ==>
                 IsNextFire(spec, now, rec.nextFireMs) && fired == FiringsOfOthers(old(fired), id))
    {
      var _ :- CheckedForSaving(name, intent, spec);
      hide Kept;
      if id !in table {
        return Err(NoSuchTrigger);
      }
      WellKeptIn(table, fired, id);
      var rec := Revised(table[id], name, intent, spec, paused, now);
      var saved: bool := *;
      if !saved {
        return Err(StoreFault);
      }
      if table[id].spec != spec {
        RearmedIsKept(table, fired, id, rec);
        fired := FiringsOfOthers(fired, id);
      } else {
        RewrittenIsKept(table, fired, id, rec);
      }
      table := table[id := rec];
      return Ok(());
    }

    method Revised(was: TriggerRecord, name: string, intent: string, spec: TriggerSpec, paused: Option<bool>, now: nat)
      returns (rec: TriggerRecord)
      requires WellKept(was) && ValidateSpec(spec).Ok?
      ensures WellKept(rec)
      ensures rec == was.(name := Trim(name), intent := Trim(intent), spec := spec, hookSecret := rec.hookSecret,
                          paused := if paused.Some? then paused.value else was.paused, nextFireMs := rec.nextFireMs)
      ensures spec == was.spec ==> rec.nextFireMs == was.nextFireMs && rec.hookSecret == was.hookSecret
      ensures spec != was.spec ==> IsNextFire(spec, now, rec.nextFireMs)
    {
      var changed := was.spec != spec;
      rec := was.(name := Trim(name), intent := Trim(intent));
      if changed {
        var next := NextFire(spec, now);
        rec := rec.(spec := spec, nextFireMs := next);
      }
      if spec.Webhook? {
        var secret: string := *;
        rec := rec.(hookSecret := if rec.hookSecret.None? then Some(secret) else rec.hookSecret);
      } else if changed {
        rec := rec.(hookSecret := None);
      }
      rec := rec.(paused := if paused.Some? then paused.value else rec.paused);
    }

    /** The due triggers, earliest deadline first, those with the same deadline in the order of their ids. */
    method Due(now: nat) returns (due: seq<TriggerId>)
      requires Valid()
      ensures forall id :: id in due <==>
                id in table && !table[id].paused && table[id].nextFireMs.Some? && table[id].nextFireMs.value <= now
      ensures forall i, j :: 0 <= i < j < |due| ==> due[i] != due[j] && NotLater(table, due[i], due[j])
    {
      due := [];
      var rest := set id | id in table && IsDue(table[id], now);
      ghost var all := rest;
      while rest != {}
        invariant rest <= all && forall id :: id in all <==> id in due || id in rest
        invariant forall id :: id in due ==> id !in rest
        invariant forall id, later :: id in due && later in rest ==> NotLater(table, id, later)
        invariant forall i, j :: 0 <= i < j < |due| ==> due[i] != due[j] && NotLater(table, due[i], due[j])
        decreases rest
      {
        EarliestExists(table, rest);
        var id :| id in rest && forall o :: o in rest ==> NotLater(table, id, o);
        due := due + [id];
        rest := rest - {id};
      }
    }

    /** Fire one trigger: refused when paused or busy, else a run is started, and only a started
        run moves the deadline. */
    method FireRecord(id: TriggerId, answer: Answer, now: nat) returns (r: Result<RunId, FireError>)
      requires Valid()
      requires id in table && table[id].nextFireMs.Some? ==> table[id].nextFireMs.value <= now
      modifies this
      ensures Valid() && table.Keys == old(table).Keys
      ensures forall o :: o in table && o != id ==> table[o] == old(table)[o]
      ensures r == if id !in old(table) then Err(UnknownTrigger)
                   else if old(table)[id].paused then Err(TriggerPaused)
                   else if old(table)[id].lastRunId.Some? && answer.active then Err(TriggerBusy)
                   else if !answer.started then Err(RunFault)
                   else Ok(answer.runId)
      ensures id in old(table) ==>
        if old(table)[id].paused then table == old(table) else Handled(old(table)[id], table[id], answer, now)
      ensures fired == if r.Ok? then old(fired) + [Firing(id, old(table)[id].spec, old(table)[id].nextFireMs, now)]
                       else old(fired)
    {
      if id !in table {
        return Err(UnknownTrigger);
      }
      var rec := table[id];
      if rec.paused {
        return Err(TriggerPaused);
      }
      if rec.lastRunId.Some? && answer.active {
        return Err(TriggerBusy);
      }
      rec := rec.(lastRunId := Some(answer.runId));
      table := table[id := rec];
      if !answer.started {
        return Err(RunFault);
      }
      RecordFiring(id, now);
      return Ok(answer.runId);
    }

    /** The run has started: note when, and move the deadline past now. */
    method RecordFiring(id: TriggerId, now: nat)
      requires Valid() && id in table
      requires table[id].nextFireMs.Some? ==> table[id].nextFireMs.value <= now
      modifies this
      ensures Valid() && id in table && table == old(table)[id := table[id]]
      ensures fired == old(fired) + [Firing(id, old(table)[id].spec, old(table)[id].nextFireMs, now)]
      ensures table[id] == old(table)[id].(lastFiredMs := Some(now), nextFireMs := table[id].nextFireMs)
      ensures NextAfterFiring(table[id].spec, table[id].nextFireMs, now)
    {
      var rec := table[id];
      var next := NextDeadline(rec.spec, now);
      ghost var firing := Firing(id, rec.spec, rec.nextFireMs, now);
      FiringsProgress(fired, firing, rec, next);
      fired := fired + [firing];
      table := table[id := rec.(lastFiredMs := Some(now), nextFireMs := next)];
    }

    /** One sweep: every due trigger gets its turn, and no other is touched. */
    method FireDue(now: nat, answers: TriggerId -> Answer) returns (runs: seq<RunId>)
      requires Valid()
      modifies this
      ensures Valid() && table.Keys == old(table).Keys && old(fired) <= fired
      ensures forall id :: id in table ==>
        if IsDue(old(table)[id], now) then Handled(old(table)[id], table[id], answers(id), now)
        else table[id] == old(table)[id]
      ensures Reported(old(fired), fired, runs, old(table), now, answers)
    {
      hide Handled, Kept, MovedPast, NextAfterFiring, NotLater, Fires, Answers, Reported;
      ReportOfNothing(fired, table, now, answers);
      var due := Due(now);
      ghost var was, before := table, fired;
      runs := [];
      var i := 0;
      while i < |due|
        invariant i <= |due| && Valid() && table.Keys == was.Keys && before <= fired
        invariant forall k :: 0 <= k < i ==> Handled(was[due[k]], table[due[k]], answers(due[k]), now)
        invariant forall k :: i <= k < |due| ==> table[due[k]] == was[due[k]]
        invariant forall id :: id in table && !IsDue(was[id], now) ==> table[id] == was[id]
        invariant Reported(before, fired, runs, was, now, answers)
      {
        ReportGrows(before, fired, runs, was, now, answers, due[i]);
        var run := FireOne(due[i], answers(due[i]), now);
        runs := if run.Some? then runs + [run.value] else runs;
        i := i + 1;
      }
    }

    /** One due trigger's turn; what goes wrong is left for the next sweep. */
    method FireOne(id: TriggerId, answer: Answer, now: nat) returns (run: Option<RunId>)
      requires Valid() && id in table && IsDue(table[id], now)
      modifies this
      ensures Valid() && id in table && table == old(table)[id := table[id]]
      ensures Handled(old(table)[id], table[id], answer, now)
      ensures run == if Fires(old(table)[id], answer) then Some(answer.runId) else None
      ensures fired == if run.Some? then old(fired) + [Firing(id, old(table)[id].spec, old(table)[id].nextFireMs, now)]
                       else old(fired)
    {
      var outcome := FireRecord(id, answer, now);
      match outcome
      case Ok(runId) => return Some(runId);
      case Err(_) => return None;
    }

    /** The scheduler's life: sweeps at the ticks of the clock, triggers created and edited in between,
        whatever the world answers. As long as a trigger keeps its spec, no deadline of it is answered
        twice, a once-trigger fires at most once, and an interval trigger's firings are at least its
        interval apart. */
    method Life(deeds: seq<Deed>, answers: (nat, TriggerId) -> Answer)
      requires Valid() && fired == []
      modifies this
      ensures Valid() && old(table).Keys <= table.Keys
      ensures forall i, j :: 0 <= i < j < |fired| && fired[i].id == fired[j].id ==> Apart(fired[i], fired[j])
    {
      hide Reported, Handled, NextAfterFiring, Kept, Progresses;
      for n := 0 to |deeds|
        invariant Valid() && old(table).Keys <= table.Keys
        invariant forall f :: f in fired ==> InTime(f)
      {
        ghost var before := fired;
        match deeds[n] {
          case Tick(now) =>
            ghost var was := table;
            var answersNow := id => answers(n, id);
            var runs := FireDue(now, answersNow);
            ReportedInTime(before, fired, runs, was, now, answersNow);
          case New(id, name, intent, spec, paused, now) =>
            if id !in table {
              var _ := Create(id, name, intent, spec, paused, now);
            }
          case Change(id, name, intent, spec, paused, now) =>
            var _ := Edit(id, name, intent, spec, paused, now);
        }
      }
      FiringsAreApart(table, fired);
    }
  }

  lemma ReportedInTime(before: seq<Firing>, fired: seq<Firing>, runs: seq<RunId>,
                       table: map<TriggerId, TriggerRecord>, now: nat, answers: TriggerId -> Answer)
    requires Reported(before, fired, runs, table, now, answers) && forall f :: f in before ==> InTime(f)
    ensures forall f :: f in fired ==> InTime(f)
  {
    forall f | f in fired ensures InTime(f) {
      var k :| 0 <= k < |fired| && fired[k] == f;
      assert k < |before| ==> before[k] == f;
    }
  }

  /** A firing of a sweep at `now`: its trigger was due, could fire, and this was its deadline. */
  predicate Answers(f: Firing, table: map<TriggerId, TriggerRecord>, now: nat, answers: TriggerId -> Answer)
  {
    && f.id in table && IsDue(table[f.id], now) && Fires(table[f.id], answers(f.id))
    && f == Firing(f.id, table[f.id].spec, table[f.id].nextFireMs, now)
  }

  /** The runs a sweep reports are those of its firings, in order, and each firing answers a trigger
      that was due. */
  predicate Reported(before: seq<Firing>, fired: seq<Firing>, runs: seq<RunId>, table: map<TriggerId, TriggerRecord>,
                     now: nat, answers: TriggerId -> Answer)
  {
    && before <= fired && |runs| == |fired| - |before|
    && forall k :: |before| <= k < |fired| ==>
         Answers(fired[k], table, now, answers) && runs[k - |before|] == answers(fired[k].id).runId
  }

  lemma ReportOfNothing(
      fired: seq<Firing>, table: map<TriggerId, TriggerRecord>, now: nat, answers: TriggerId -> Answer)
    ensures Reported(fired, fired, [], table, now, answers)
  {
  }

  /** One more due trigger that fires is one more run to report. */
  lemma ReportGrows(before: seq<Firing>, fired: seq<Firing>, runs: seq<RunId>, table: map<TriggerId, TriggerRecord>,
                    now: nat, answers: TriggerId -> Answer, id: TriggerId)
    requires Reported(before, fired, runs, table, now, answers)
    requires id in table && IsDue(table[id], now)
    ensures Fires(table[id], answers(id)) ==>
      Reported(before, fired + [Firing(id, table[id].spec, table[id].nextFireMs, now)], runs + [answers(id).runId],
               table, now, answers)
  {
  }

  /** The firing answers a deadline that had come. */
  predicate InTime(f: Firing)
  {
    f.deadline.Some? && f.deadline.value <= f.now
  }

  /** Two firings of one trigger, the second later: different deadlines, never of a once-trigger,
      and an interval apart. */
  predicate Apart(f: Firing, g: Firing)
  {
    && f.deadline.Some? && g.deadline.Some? && f.deadline.value < g.deadline.value
    && !f.spec.Once?
    && (f.spec.Interval? ==> f.now + f.spec.everyMs <= g.now)
  }

  /** The deadline after a firing at `now`: none, one interval on, or the first slot after now. */
  method NextDeadline(spec: TriggerSpec, now: nat) returns (next: Option<nat>)
    requires ValidateSpec(spec).Ok?
    ensures NextAfterFiring(spec, next, now) && MovedPast(spec, next, now)
  {
    if spec.Once? || spec.Webhook? {
      next := None;
    } else if spec.Interval? {
      next := NextFire(spec, now);
    } else {
      next := NextFire(spec, now + 1);
    }
  }

  predicate NotLater(table: map<TriggerId, TriggerRecord>, a: TriggerId, b: TriggerId)
  {
    && a in table && table[a].nextFireMs.Some? && b in table && table[b].nextFireMs.Some?
    && (|| table[a].nextFireMs.value < table[b].nextFireMs.value
        || (table[a].nextFireMs.value == table[b].nextFireMs.value && TextAtMost(a.text, b.text)))
  }

  /** Not later is an earlier deadline, or the same one and an id that does not come after. */
  lemma NotLaterIsExact(table: map<TriggerId, TriggerRecord>, a: TriggerId, b: TriggerId)
    requires a in table && b in table
    ensures NotLater(table, a, b) <==>
      match (table[a].nextFireMs, table[b].nextFireMs)
      case (Some(x), Some(y)) =>
        || x < y
        || (x == y && (a.text <= b.text || exists k :: 0 <= k < |a.text| && k < |b.text|
                                                    && a.text[..k] == b.text[..k] && a.text[k] < b.text[k]))
      case _ => false
  {
    TextOrderIsExact(a.text, b.text);
  }

  lemma EarliestExists(table: map<TriggerId, TriggerRecord>, ids: set<TriggerId>)
    requires ids != {} && forall id :: id in ids ==> id in table && table[id].nextFireMs.Some?
    ensures exists id :: id in ids && (forall o :: o in ids ==> NotLater(table, id, o))
    decreases |ids|
  {
    hide NotLater;
    var x :| x in ids;
    var rest := ids - {x};
    assert forall o :: o in ids ==> o == x || o in rest;
    if rest == {} {
      NotLaterIsTotal(table, x, x);
      assert forall o :: o in ids ==> NotLater(table, x, o);
    } else {
      EarliestExists(table, rest);
      var m :| m in rest && forall o :: o in rest ==> NotLater(table, m, o);
      NotLaterIsTotal(table, x, m);
      var least := if NotLater(table, x, m) then x else m;
      forall o | o in ids ensures NotLater(table, least, o) {
        NotLaterIsTotal(table, x, x);
        if o in rest {
          NotLaterIsTransitive(table, least, m, o);
        }
      }
    }
  }

  lemma NotLaterIsTotal(table: map<TriggerId, TriggerRecord>, a: TriggerId, b: TriggerId)
    requires a in table && table[a].nextFireMs.Some? && b in table && table[b].nextFireMs.Some?
    ensures NotLater(table, a, b) || NotLater(table, b, a)
  {
    TextOrderIsTotal(a.text, b.text);
  }

  lemma NotLaterIsTransitive(table: map<TriggerId, TriggerRecord>, a: TriggerId, b: TriggerId, c: TriggerId)
    requires NotLater(table, b, c)
    ensures NotLater(table, a, b) ==> NotLater(table, a, c)
  {
    if TextAtMost(a.text, b.text) && TextAtMost(b.text, c.text) {
      TextOrderIsTransitive(a.text, b.text, c.text);
    }
  }

  /** A firing of a due deadline progresses past every earlier firing of its trigger, and the new
      deadline leaves all of them behind. */
  lemma FiringsProgress(fired: seq<Firing>, g: Firing, rec: TriggerRecord, next: Option<nat>)
    requires forall f :: f in fired && f.id == g.id ==> LeftBehind(f, rec)
    requires WellKept(rec) && g.spec == rec.spec && g.deadline == rec.nextFireMs
    requires rec.nextFireMs.Some? ==> rec.nextFireMs.value <= g.now
    requires MovedPast(rec.spec, next, g.now)
    ensures forall i :: 0 <= i < |fired| && fired[i].id == g.id ==> Progresses(fired[i], g)
    ensures forall f :: f in fired && f.id == g.id ==> LeftBehind(f, rec.(nextFireMs := next))
  {
  }

  /** Firings that answer deadlines in time, each past the ones before, are apart. */
  lemma FiringsAreApart(table: map<TriggerId, TriggerRecord>, fired: seq<Firing>)
    requires Kept(table, fired) && forall f :: f in fired ==> InTime(f)
    ensures forall i, j :: 0 <= i < j < |fired| && fired[i].id == fired[j].id ==> Apart(fired[i], fired[j])
  {
    forall i, j | 0 <= i < j < |fired| && fired[i].id == fired[j].id ensures Apart(fired[i], fired[j]) {
      assert Progresses(fired[i], fired[j]) && InTime(fired[i]) && InTime(fired[j]);
    }
  }
}
