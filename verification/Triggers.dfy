/** When a trigger is due: the calendar arithmetic of the scheduler. */
module Triggers {
  import opened Protocol
  import opened Calendar

  const MS_PER_MINUTE: int := 60_000
  const MS_PER_HOUR: int := 3_600_000
  const MS_PER_DAY: int := 86_400_000

  datatype TriggerSpec =
    | Once(atMs: nat)
    | Interval(everyMs: nat)
    | Daily(hour: nat, minute: nat, tz: int)
    | Weekly(weekday: nat, hour: nat, minute: nat, tz: int)
    | Monthly(day: nat, hour: nat, minute: nat, tz: int)
    | Webhook

  predicate ValidClock(hour: nat, minute: nat, tz: int)
  {
    hour <= 23 && minute <= 59 && -14 * 60 <= tz <= 14 * 60
  }

  function ValidateClock(hour: nat, minute: nat, tz: int): Result<(), string>
  {
    if hour > 23 then Err("hour must be 0..=23")
    else if minute > 59 then Err("minute must be 0..=59")
    else if !(-14 * 60 <= tz <= 14 * 60) then Err("tz_offset_minutes must be within 14 hours")
    else Ok(())
  }

  function ValidateSpec(spec: TriggerSpec): Result<(), string>
  {
    match spec
    case Once(_) => Ok(())
    case Interval(every) => if every == 0 then Err("interval.every_ms must be > 0") else Ok(())
    case Daily(h, m, tz) => ValidateClock(h, m, tz)
    case Weekly(wd, h, m, tz) =>
      if wd > 6 then Err("weekly.weekday must be 0..=6 (0=Monday)") else ValidateClock(h, m, tz)
    case Monthly(d, h, m, tz) =>
      if d == 0 || d > 31 then Err("monthly.day must be 1..=31") else ValidateClock(h, m, tz)
    case Webhook => Ok(())
  }

  function LocalMs(utcMs: int, tz: int): int
  {
    utcMs + tz * MS_PER_MINUTE
  }

  function UtcFromLocal(local: int, tz: int): nat
  {
    if local - tz * MS_PER_MINUTE >= 0 then local - tz * MS_PER_MINUTE else 0
  }

  function TimeOfDay(hour: nat, minute: nat): int
  {
    hour * MS_PER_HOUR + minute * MS_PER_MINUTE
  }

  // ---------------------------------------------------------------- what a slot is

  function DayOfLocal(local: int): int { local / MS_PER_DAY }

  function WeekdayOf(unixDays: int): int
  {
    (unixDays + 3) % 7
  }

  /** A local clock shows this hour and this minute, and the minute has just begun. */
  predicate ClockReads(local: int, hour: nat, minute: nat)
  {
    var tod := local % 86_400_000;
    tod / 3_600_000 == hour && tod % 3_600_000 / 60_000 == minute && tod % 60_000 == 0
  }

  /**
   * The instant is one of the spec's calendar slots. A clock `tz` minutes ahead of universal time shows
   * the hour and minute, on a date with the right weekday, counted from Monday as 0 by the calendar's
   * own rule, or with the right day of the month.
   */
  predicate IsSlot(spec: TriggerSpec, t: int)
  {
    match spec
    case Daily(h, m, tz) => ClockReads(t + tz * 60_000, h, m)
    case Weekly(wd, h, m, tz) =>
      && ClockReads(t + tz * 60_000, h, m)
      && 1 <= CivilFromUnixDays((t + tz * 60_000) / 86_400_000).month <= 12
      && WeekdayOfDate(CivilFromUnixDays((t + tz * 60_000) / 86_400_000)) == wd
    case Monthly(d, h, m, tz) =>
      && ClockReads(t + tz * 60_000, h, m)
      && CivilFromUnixDays((t + tz * 60_000) / 86_400_000).day == d
    case _ => false
  }

  lemma WeekdayOfLocal(local: int)
    ensures var date := CivilFromUnixDays(local / 86_400_000);
      1 <= date.month <= 12 && WeekdayOfDate(date) == WeekdayOf(DayOfLocal(local))
  {
    hide CivilFromUnixDays, WeekdayOfDate;
    DaysRoundTrip(local / 86_400_000);
    WeekdaysFollowTheCalendar(local / 86_400_000);
  }

  lemma ClockIsTimeOfDay(local: int, hour: nat, minute: nat)
    ensures ClockReads(local, hour, minute) <==>
      hour <= 23 && minute <= 59 && local % MS_PER_DAY == TimeOfDay(hour, minute)
  {
  }

  /** The first slot at or after `from`. */
  ghost predicate IsFirstSlot(spec: TriggerSpec, from: int, t: int)
  {
    from <= t && IsSlot(spec, t) && forall u :: from <= u && IsSlot(spec, u) ==> t <= u
  }

  // ---------------------------------------------------------------- daily and weekly

  function NextDaily(fromMs: nat, hour: nat, minute: nat, tz: int): nat
  {
    var local := LocalMs(fromMs, tz);
    var tod := local % MS_PER_DAY;
    var dayStart := local - tod;
    var target := TimeOfDay(hour, minute);
    UtcFromLocal(if tod <= target then dayStart + target else dayStart + MS_PER_DAY + target, tz)
  }

  lemma NextDailyIsFirst(fromMs: nat, hour: nat, minute: nat, tz: int)
    requires ValidClock(hour, minute, tz)
    ensures IsFirstSlot(Daily(hour, minute, tz), fromMs, NextDaily(fromMs, hour, minute, tz))
  {
    var local := LocalMs(fromMs, tz);
    var target := TimeOfDay(hour, minute);
    var day := DayOfLocal(local);
    var chosen := if local % MS_PER_DAY <= target then day else day + 1;
    SlotOfDay(chosen, target);
    var r := NextDaily(fromMs, hour, minute, tz);
    assert LocalMs(r, tz) == chosen * MS_PER_DAY + target;
    ClockIsTimeOfDay(LocalMs(r, tz), hour, minute);
    forall u | fromMs <= u && IsSlot(Daily(hour, minute, tz), u) ensures r <= u {
      ClockIsTimeOfDay(LocalMs(u, tz), hour, minute);
      DayOfSlot(LocalMs(u, tz), local, target);
    }
  }

  /** A slot is fixed by its day. */
  lemma SlotOfDay(day: int, target: int)
    requires 0 <= target < MS_PER_DAY
    ensures DayOfLocal(day * MS_PER_DAY + target) == day && (day * MS_PER_DAY + target) % MS_PER_DAY == target
  {
    DivisionIsUnique(day * MS_PER_DAY + target, MS_PER_DAY, day, target);
  }

  /** A slot not before `local` is on the same day, if that day's slot is still ahead, or later. */
  lemma DayOfSlot(slot: int, local: int, target: int)
    requires 0 <= target < MS_PER_DAY && slot % MS_PER_DAY == target && local <= slot
    ensures slot == DayOfLocal(slot) * MS_PER_DAY + target
    ensures DayOfLocal(local) <= DayOfLocal(slot)
    ensures local % MS_PER_DAY > target ==> DayOfLocal(local) < DayOfLocal(slot)
  {
  }

  function NextWeekly(fromMs: nat, weekday: nat, hour: nat, minute: nat, tz: int): nat
  {
    var local := LocalMs(fromMs, tz);
    var tod := local % MS_PER_DAY;
    var dayStart := local - tod;
    var wd := (dayStart / MS_PER_DAY + 3) % 7;
    var target := TimeOfDay(hour, minute);
    var ahead := (weekday + 7 - wd) % 7;
    var delta := if ahead == 0 && tod > target then 7 else ahead;
    UtcFromLocal(dayStart + delta * MS_PER_DAY + target, tz)
  }

  /** How many days ahead of `local` the weekly slot lies. */
  function DaysAhead(local: int, weekday: nat, target: int): nat
  {
    var ahead := (weekday + 7 - WeekdayOf(DayOfLocal(local))) % 7;
    if ahead == 0 && local % MS_PER_DAY > target then 7 else ahead
  }

  lemma NextWeeklyAt(fromMs: nat, weekday: nat, hour: nat, minute: nat, tz: int)
    requires ValidClock(hour, minute, tz) && weekday <= 6
    ensures var local, target := LocalMs(fromMs, tz), TimeOfDay(hour, minute);
      LocalMs(NextWeekly(fromMs, weekday, hour, minute, tz), tz)
      == (DayOfLocal(local) + DaysAhead(local, weekday, target)) * MS_PER_DAY + target >= local
  {
    var local := LocalMs(fromMs, tz);
    var dayStart := local - local % MS_PER_DAY;
    assert dayStart == DayOfLocal(local) * MS_PER_DAY && dayStart / MS_PER_DAY == DayOfLocal(local);
  }

  lemma NextWeeklyIsFirst(fromMs: nat, weekday: nat, hour: nat, minute: nat, tz: int)
    requires ValidClock(hour, minute, tz) && weekday <= 6
    ensures IsFirstSlot(Weekly(weekday, hour, minute, tz), fromMs, NextWeekly(fromMs, weekday, hour, minute, tz))
  {
    hide NextWeekly, DaysAhead, CivilFromUnixDays, WeekdayOfDate;
    var spec := Weekly(weekday, hour, minute, tz);
    var local, target := LocalMs(fromMs, tz), TimeOfDay(hour, minute);
    var day, delta := DayOfLocal(local), DaysAhead(local, weekday, target);
    NextWeeklyAt(fromMs, weekday, hour, minute, tz);
    SlotOfDay(day + delta, target);
    LandsOnWeekday(local, weekday, target);
    var r := NextWeekly(fromMs, weekday, hour, minute, tz);
    ClockIsTimeOfDay(LocalMs(r, tz), hour, minute);
    WeekdayOfLocal(LocalMs(r, tz));
    forall u | fromMs <= u && IsSlot(spec, u) ensures r <= u {
      ClockIsTimeOfDay(LocalMs(u, tz), hour, minute);
      WeekdayOfLocal(LocalMs(u, tz));
      WeeklySlotLies(LocalMs(u, tz), local, weekday, target);
    }
  }

  lemma LandsOnWeekday(local: int, weekday: nat, target: int)
    requires weekday <= 6
    ensures WeekdayOf(DayOfLocal(local) + DaysAhead(local, weekday, target)) == weekday
  {
  }

  /** A slot not before `local` lies at least as many days ahead as the next one. */
  lemma WeeklySlotLies(slot: int, local: int, weekday: nat, target: int)
    requires 0 <= target < MS_PER_DAY && slot % MS_PER_DAY == target && local <= slot
    requires weekday <= 6 && WeekdayOf(DayOfLocal(slot)) == weekday
    ensures (DayOfLocal(local) + DaysAhead(local, weekday, target)) * MS_PER_DAY + target <= slot
  {
    var day, delta := DayOfLocal(local), DaysAhead(local, weekday, target);
    DayOfSlot(slot, local, target);
    WeekdaysRepeat(day, DayOfLocal(slot), weekday, delta);
    assert day + delta <= DayOfLocal(slot);
  }

  /** Days with the right weekday are `delta` days ahead, or whole weeks after that. */
  lemma WeekdaysRepeat(day: int, later: int, weekday: nat, delta: nat)
    requires weekday <= 6 && day <= later && WeekdayOf(later) == weekday
    requires delta <= 7 && WeekdayOf(day + delta) == weekday
    ensures delta < 7 ==> day + delta <= later
    ensures delta == 7 && later > day ==> day + delta <= later
  {
    assert (later - day - delta) % 7 == 0;
  }

  // ---------------------------------------------------------------- monthly

  /** The days of a month are numbered from its first day. */
  lemma DaysOfMonth(year: int, month: nat, n: int)
    requires 1 <= month <= 12
    ensures var first := UnixDaysFromCivil(Date(year, month, 1));
      first <= n < first + DaysInMonth(year, month) ==>
        CivilFromUnixDays(n) == Date(year, month, n - first + 1)
  {
    hide CivilFromUnixDays, UnixDaysFromCivil;
    var first := UnixDaysFromCivil(Date(year, month, 1));
    if first <= n < first + DaysInMonth(year, month) {
      var d := Date(year, month, n - first + 1);
      DaysCountUp(d);
      DateRoundTrip(d);
    }
  }

  /** Every slot of the spec at or after `local` falls on or after unix day `first`. */
  ghost predicate NoneBefore(day: nat, target: int, local: int, first: int)
  {
    forall n :: CivilFromUnixDays(n).day == day && n * MS_PER_DAY + target >= local ==> n >= first
  }

  /** A month without the day, or whose slot is over, holds nothing that is still to come. */
  lemma MonthPassed(day: nat, target: int, local: int, year: int, month: nat)
    requires 1 <= month <= 12
    requires NoneBefore(day, target, local, UnixDaysFromCivil(Date(year, month, 1)))
    requires day <= DaysInMonth(year, month) ==>
      UnixDaysFromCivil(Date(year, month, day)) * MS_PER_DAY + target < local
    ensures NoneBefore(day, target, local, UnixDaysFromCivil(Date(year, month, 1)) + DaysInMonth(year, month))
  {
    hide CivilFromUnixDays, UnixDaysFromCivil;
    var first := UnixDaysFromCivil(Date(year, month, 1));
    forall n | CivilFromUnixDays(n).day == day && n * MS_PER_DAY + target >= local
      ensures n >= first + DaysInMonth(year, month)
    {
      DaysOfMonth(year, month, n);
      DaysRoundTrip(n);
    }
  }

  /** The slot of the first month that still has one ahead is the first slot. */
  lemma MonthlyIsFirst(fromMs: nat, day: nat, hour: nat, minute: nat, tz: int, year: int, month: nat, r: nat)
    requires 1 <= month <= 12 && 1 <= day <= DaysInMonth(year, month) && ValidClock(hour, minute, tz)
    requires NoneBefore(day, TimeOfDay(hour, minute), LocalMs(fromMs, tz), UnixDaysFromCivil(Date(year, month, 1)))
    requires LocalMs(r, tz) == UnixDaysFromCivil(Date(year, month, day)) * MS_PER_DAY + TimeOfDay(hour, minute)
    requires fromMs <= r
    ensures IsFirstSlot(Monthly(day, hour, minute, tz), fromMs, r)
  {
    hide CivilFromUnixDays, UnixDaysFromCivil;
    var spec, target, local := Monthly(day, hour, minute, tz), TimeOfDay(hour, minute), LocalMs(fromMs, tz);
    var n := UnixDaysFromCivil(Date(year, month, day));
    SlotOfDay(n, target);
    DateRoundTrip(Date(year, month, day));
    DaysCountUp(Date(year, month, day));
    ClockIsTimeOfDay(LocalMs(r, tz), hour, minute);
    forall u | fromMs <= u && IsSlot(spec, u) ensures r <= u {
      var slot := LocalMs(u, tz);
      ClockIsTimeOfDay(slot, hour, minute);
      DayOfSlot(slot, local, target);
      DaysOfMonth(year, month, DayOfLocal(slot));
    }
  }

  /** The first slot at or after `fromMs` in a month that has such a day. Three months are always
      enough, so the fallback after the loop is never reached. */
  method NextMonthly(fromMs: nat, day: nat, hour: nat, minute: nat, tz: int) returns (r: nat)
    requires 1 <= day <= 31 && ValidClock(hour, minute, tz)
    ensures IsFirstSlot(Monthly(day, hour, minute, tz), fromMs, r)
  {
    hide CivilFromUnixDays, UnixDaysFromCivil;
    var local := LocalMs(fromMs, tz);
    var tod := local % MS_PER_DAY;
    var dayStart := local - tod;
    var unixDays := dayStart / MS_PER_DAY;
    assert unixDays == DayOfLocal(local);
    var today := CivilFromUnixDays(unixDays);
    var year, month := today.year, today.month;
    var target := TimeOfDay(hour, minute);
    DaysRoundTrip(unixDays);
    DaysCountUp(today);
    ghost var shortMonth := false;
    for k := 0 to 28
      invariant 1 <= month <= 12 && k <= 2
      invariant NoneBefore(day, target, local, UnixDaysFromCivil(Date(year, month, 1)))
      invariant k == 0 ==>
        0 <= unixDays - UnixDaysFromCivil(Date(year, month, 1)) < DaysInMonth(year, month)
      invariant k >= 1 ==> UnixDaysFromCivil(Date(year, month, 1)) > unixDays
      invariant k == 2 ==> DaysInMonth(year, month) == 31
    {
      var daysIn := DaysInMonth(year, month);
      ghost var first := UnixDaysFromCivil(Date(year, month, 1));
      if day <= daysIn {
        var candidateDays := UnixDaysFromCivil(Date(year, month, day));
        var candidateLocal := candidateDays * MS_PER_DAY + target;
        DaysCountUp(Date(year, month, day));
        if candidateLocal >= local {
          r := UtcFromLocal(candidateLocal, tz);
          MonthlyIsFirst(fromMs, day, hour, minute, tz, year, month, r);
          return;
        }
      }
      MonthPassed(day, target, local, year, month);
      MonthsAreContiguous(Date(year, month, 1));
      month := month + 1;
      if month == 13 {
        month := 1;
        year := year + 1;
      }
    }
    assert false;
  }

  // ---------------------------------------------------------------- the next deadline

  /** What `NextFire` promises for each kind of spec. */
  ghost predicate IsNextFire(spec: TriggerSpec, fromMs: nat, next: Option<nat>)
  {
    match spec
    case Webhook => next == None
    case Once(at) => next == Some(at)
    case Interval(every) => next == Some(fromMs + every)
    case _ => next.Some? && IsFirstSlot(spec, fromMs, next.value)
  }

  method NextFire(spec: TriggerSpec, fromMs: nat) returns (next: Option<nat>)
    requires ValidateSpec(spec).Ok?
    ensures IsNextFire(spec, fromMs, next)
  {
    match spec
    case Webhook => next := None;
    case Once(at) => next := Some(at);
    case Interval(every) => next := Some(fromMs + every);
    case Daily(h, m, tz) =>
      NextDailyIsFirst(fromMs, h, m, tz);
      next := Some(NextDaily(fromMs, h, m, tz));
    case Weekly(wd, h, m, tz) =>
      NextWeeklyIsFirst(fromMs, wd, h, m, tz);
      next := Some(NextWeekly(fromMs, wd, h, m, tz));
    case Monthly(d, h, m, tz) =>
      var t := NextMonthly(fromMs, d, h, m, tz);
      next := Some(t);
  }

  // ---------------------------------------------------------------- what validation lets in

  /** A spec that can fire and then moves on. A calendar spec needs an offset that is in use, and at
      least one instant that is its slot; `NextFire` then finds one from everywhere. */
  ghost predicate CanFire(spec: TriggerSpec)
  {
    match spec
    case Interval(every) => every > 0
    case Daily(_, _, tz) => -14 * 60 <= tz <= 14 * 60 && exists t :: IsSlot(spec, t)
    case Weekly(_, _, _, tz) => -14 * 60 <= tz <= 14 * 60 && exists t :: IsSlot(spec, t)
    case Monthly(_, _, _, tz) => -14 * 60 <= tz <= 14 * 60 && exists t :: IsSlot(spec, t)
    case _ => true
  }

  /** Validation lets in exactly the specs that can fire: an hour, minute, weekday or day of the month
      that it refuses never comes, and every one it lets in does. */
  lemma ValidationIsExact(spec: TriggerSpec)
    ensures ValidateSpec(spec).Ok? <==>
            match spec
            case Interval(every) => every > 0
            case Daily(_, _, tz) => -840 <= tz <= 840 && exists t :: IsSlot(spec, t)
            case Weekly(_, _, _, tz) => -840 <= tz <= 840 && exists t :: IsSlot(spec, t)
            case Monthly(_, _, _, tz) => -840 <= tz <= 840 && exists t :: IsSlot(spec, t)
            case _ => true
  {
    hide CivilFromUnixDays, UnixDaysFromCivil, WeekdayOfDate;
    if ValidateSpec(spec).Ok? {
      match spec
      case Daily(h, m, tz) => SlotOn(spec, 0, h, m, tz);
      case Weekly(wd, h, m, tz) => SlotOn(spec, wd + 4, h, m, tz);
      case Monthly(d, h, m, tz) =>
        var n := UnixDaysFromCivil(Date(1970, 1, d));
        DateRoundTrip(Date(1970, 1, d));
        SlotOn(spec, n, h, m, tz);
      case _ =>
    } else if CanFire(spec) && !spec.Interval? {
      var t :| IsSlot(spec, t);
      SlotIsPossible(spec, t);
      assert false;
    }
  }

  /** And a refusal names a part of the spec that is out of its range. */
  lemma RefusalNamesItsCause(spec: TriggerSpec)
    requires ValidateSpec(spec).Err?
    ensures match ValidateSpec(spec).error
            case "interval.every_ms must be > 0" => spec == Interval(0)
            case "weekly.weekday must be 0..=6 (0=Monday)" => spec.Weekly? && spec.weekday >= 7
            case "monthly.day must be 1..=31" => spec.Monthly? && !(1 <= spec.day <= 31)
            case "hour must be 0..=23" => spec.hour >= 24
            case "minute must be 0..=59" => spec.minute >= 60
            case "tz_offset_minutes must be within 14 hours" => !(-840 <= spec.tz <= 840)
            case _ => false
  {
  }

  /** A local day with the right weekday or number has a slot. */
  lemma SlotOn(spec: TriggerSpec, day: int, hour: nat, minute: nat, tz: int)
    requires hour <= 23 && minute <= 59
    requires
      || spec == Daily(hour, minute, tz)
      || (spec.Weekly? && spec == Weekly(spec.weekday, hour, minute, tz) && WeekdayOf(day) == spec.weekday)
      || (spec.Monthly? && spec == Monthly(spec.day, hour, minute, tz) && CivilFromUnixDays(day).day == spec.day)
    ensures exists t :: IsSlot(spec, t)
  {
    hide CivilFromUnixDays, WeekdayOfDate;
    var local := day * MS_PER_DAY + TimeOfDay(hour, minute);
    SlotOfDay(day, TimeOfDay(hour, minute));
    ClockIsTimeOfDay(local, hour, minute);
    assert LocalMs(local - tz * MS_PER_MINUTE, tz) == local;
    WeekdayOfLocal(local);
    assert IsSlot(spec, local - tz * MS_PER_MINUTE);
  }

  /** No clock shows a 24th hour or a 60th minute, and no calendar an eighth weekday or a 32nd. */
  lemma SlotIsPossible(spec: TriggerSpec, t: int)
    requires IsSlot(spec, t)
    ensures spec.hour <= 23 && spec.minute <= 59
    ensures spec.Weekly? ==> spec.weekday <= 6
    ensures spec.Monthly? ==> 1 <= spec.day <= 31
  {
    hide CivilFromUnixDays, WeekdayOfDate;
    ClockIsTimeOfDay(LocalMs(t, spec.tz), spec.hour, spec.minute);
    DaysRoundTrip(DayOfLocal(LocalMs(t, spec.tz)));
    WeekdayOfLocal(LocalMs(t, spec.tz));
  }
}
