/** The hours a campaign may show in. The program compares times of day as text; here that comparison is
    related to shifts on one line of minutes. Days are numbered, and a minute is counted from the start of day 0. */
module BusinessHours {
  import opened Prelude
  import opened TextOrder

  datatype WorkingHours = WorkingHours(open: string, close: string)

  const CLOSED := WorkingHours("", "")

  /** `working` maps a day of the week to its hours; a holiday whose date names no day is `None`. */
  datatype Schedule = Schedule(working: map<int, WorkingHours>, holidays: seq<Option<int>>)

  /** What the lookup of the business hours gives: nothing, or a record whose lists may fail to parse. */
  datatype Lookup = Missing | Found(alwaysOpen: bool, schedule: Option<Schedule>)

  datatype Answer = Within(yes: bool) | Invalid

  function Weekday(day: int): int {
    day % 7
  }

  function HoursOf(s: Schedule, day: int): WorkingHours {
    if Weekday(day) in s.working then s.working[Weekday(day)] else CLOSED
  }

  // ----- times of day as text

  function Digit(n: int): char
    requires 0 <= n < 10
  {
    (48 + n) as char
  }

  /** "00:00" to "24:00". */
  function Clock(m: int): (r: string)
    requires 0 <= m <= 1440
    ensures |r| == 5
  {
    [Digit(m / 600), Digit(m / 60 % 10), ':', Digit(m % 60 / 10), Digit(m % 60 % 10)]
  }

  /** The minute a text stands for; the empty text comes before every time of day. */
  ghost predicate Stands(text: string, m: int) {
    -1 <= m <= 1440 && text == if m == -1 then "" else Clock(m)
  }

  ghost predicate WellFormed(h: WorkingHours) {
    (exists m :: Stands(h.open, m)) && (exists m :: Stands(h.close, m))
  }

  lemma FirstDecides(x: char, y: char, a: string, b: string)
    ensures CompareText([x] + a, [y] + b) == if x != y then CompareInt(x as int, y as int) else CompareText(a, b)
  {
    assert ([x] + a)[1..] == a && ([y] + b)[1..] == b;
  }

  lemma FiveDecide(a: string, b: string)
    requires |a| == |b| == 5
    ensures CompareText(a, b) ==
            if a[0] != b[0] then CompareInt(a[0] as int, b[0] as int)
            else if a[1] != b[1] then CompareInt(a[1] as int, b[1] as int)
            else if a[2] != b[2] then CompareInt(a[2] as int, b[2] as int)
            else if a[3] != b[3] then CompareInt(a[3] as int, b[3] as int)
            else CompareInt(a[4] as int, b[4] as int)
  {
    Unfold(a, b, 0);
    Unfold(a, b, 1);
    Unfold(a, b, 2);
    Unfold(a, b, 3);
    Unfold(a, b, 4);
    assert a[0..] == a && b[0..] == b && a[5..] == [] && b[5..] == [];
  }

  lemma Unfold(a: string, b: string, i: nat)
    requires i < |a| == |b|
    ensures CompareText(a[i..], b[i..]) ==
            if a[i] != b[i] then CompareInt(a[i] as int, b[i] as int) else CompareText(a[i + 1..], b[i + 1..])
  {
    assert a[i..] == [a[i]] + a[i + 1..] && b[i..] == [b[i]] + b[i + 1..];
    FirstDecides(a[i], b[i], a[i + 1..], b[i + 1..]);
  }

  lemma Digits(m: int)
    requires 0 <= m <= 1440
    ensures m == 600 * (m / 600) + 60 * (m / 60 % 10) + 10 * (m % 60 / 10) + m % 60 % 10
    ensures 0 <= m / 600 < 10 && 0 <= m / 60 % 10 < 10 && 0 <= m % 60 / 10 < 6 && 0 <= m % 60 % 10 < 10
  {
    assert m / 60 / 10 == m / 600;
  }

  lemma ClockReads()
    ensures Clock(0) == "00:00" && Clock(545) == "09:05" && Clock(1439) == "23:59"
  {
  }

  /** Times of day compare as text exactly as their minutes do. */
  lemma ClockOrder(a: int, b: int)
    requires 0 <= a <= 1440 && 0 <= b <= 1440
    ensures CompareText(Clock(a), Clock(b)) == CompareInt(a, b)
  {
    FiveDecide(Clock(a), Clock(b));
    Digits(a);
    Digits(b);
  }

  lemma TextOrderIsMinuteOrder(s: string, m: int, t: string, n: int)
    requires Stands(s, m) && Stands(t, n)
    ensures CompareText(s, t) == CompareInt(m, n)
  {
    hide Clock;
    if m >= 0 && n >= 0 {
      ClockOrder(m, n);
    }
  }

  // ----- the program

  predicate Before(a: string, b: string) {
    CompareText(a, b) == Below
  }

  function WithinWorkingHours(clock: string, day: WorkingHours, previous: WorkingHours): bool {
    if Before(day.open, day.close) && !Before(clock, day.open) && Before(clock, day.close) then true
    else if Before(day.close, day.open) && !Before(clock, day.open) then true
    else Before(previous.close, previous.open) && Before(clock, previous.close)
  }

  /** The answer, independent of how the holidays are walked. */
  function Answered(anyHours: bool, lookup: Lookup, day: int, minute: int): Answer
    requires 0 <= minute < 1440
  {
    if anyHours then Within(true)
    else if lookup.Missing? then Invalid
    else if lookup.alwaysOpen then Within(true)
    else if lookup.schedule.None? then Invalid
    else Within(IsWithin(lookup.schedule.value, day, minute))
  }

  function IsWithin(s: Schedule, day: int, minute: int): bool
    requires 0 <= minute < 1440
  {
    if Some(day) in s.holidays then false
    else WithinWorkingHours(Clock(minute), HoursOf(s, day), if Some(day - 1) in s.holidays then CLOSED else HoursOf(s, day - 1))
  }

  // ----- shifts on the line of minutes

  ghost function MinuteOf(text: string): (m: int)
    requires exists m :: Stands(text, m)
    ensures Stands(text, m)
  {
    var m :| Stands(text, m);
    m
  }

  /** Minute `t`, counted from midnight of the day a shift starts on, lies in the shift. Overnight hours run into the
      next day and equal hours are no shift; the empty text opens at midnight, and closes overnight hours at midnight. */
  ghost predicate InShift(h: WorkingHours, t: int)
    requires WellFormed(h)
  {
    var open, close := MinuteOf(h.open), MinuteOf(h.close);
    if open < close then 0 <= t && open <= t < close
    else if open > close then open <= t < 1440 + if close < 0 then 0 else close
    else false
  }

  ghost predicate AllWellFormed(s: Schedule) {
    forall w | w in s.working :: WellFormed(s.working[w])
  }

  lemma HoursWellFormed(s: Schedule, day: int)
    requires AllWellFormed(s)
    ensures WellFormed(HoursOf(s, day))
  {
    assert Stands("", -1);
  }

  /** The shift that starts on `day`, if that is no holiday and its weekday has hours, covers minute `t` of the line. */
  ghost predicate Covers(s: Schedule, day: int, t: int)
    requires AllWellFormed(s)
  {
    Some(day) !in s.holidays && day % 7 in s.working && InShift(s.working[day % 7], t - 1440 * day)
  }

  lemma CoversByHours(s: Schedule, day: int, t: int)
    requires AllWellFormed(s)
    ensures WellFormed(HoursOf(s, day))
    ensures Covers(s, day, t) <==> Some(day) !in s.holidays && InShift(HoursOf(s, day), t - 1440 * day)
  {
    HoursWellFormed(s, day);
    ClosedCoversNothing(t - 1440 * day);
  }

  ghost predicate Covered(s: Schedule, t: int)
    requires AllWellFormed(s)
  {
    exists e :: Covers(s, e, t)
  }

  lemma ClosedCoversNothing(t: int)
    ensures WellFormed(CLOSED) && !InShift(CLOSED, t)
  {
    assert Stands("", -1);
  }

  /** The text comparisons of one day are membership in the shift of that day or of the day before. */
  lemma ComparisonsAreShifts(day: WorkingHours, previous: WorkingHours, minute: int)
    requires WellFormed(day) && WellFormed(previous) && 0 <= minute < 1440
    ensures WithinWorkingHours(Clock(minute), day, previous) <==> InShift(day, minute) || InShift(previous, 1440 + minute)
  {
    var clock := Clock(minute);
    assert Stands(clock, minute);
    hide Stands, Clock;
    var open, close := MinuteOf(day.open), MinuteOf(day.close);
    TextOrderIsMinuteOrder(day.open, open, day.close, close);
    TextOrderIsMinuteOrder(day.close, close, day.open, open);
    TextOrderIsMinuteOrder(clock, minute, day.open, open);
    TextOrderIsMinuteOrder(clock, minute, day.close, close);
    var from, until := MinuteOf(previous.open), MinuteOf(previous.close);
    TextOrderIsMinuteOrder(previous.close, until, previous.open, from);
    TextOrderIsMinuteOrder(clock, minute, previous.close, until);
    Bounds(day);
    Bounds(previous);
    hide CompareText;
  }

  lemma Bounds(h: WorkingHours)
    requires WellFormed(h)
    ensures -1 <= MinuteOf(h.open) <= 1440 && -1 <= MinuteOf(h.close) <= 1440
  {
  }

  lemma OnlyTodayOrYesterday(s: Schedule, e: int, day: int, minute: int)
    requires AllWellFormed(s) && 0 <= minute < 1440 && Covers(s, e, 1440 * day + minute)
    ensures e == day || e == day - 1
  {
    CoversByHours(s, e, 1440 * day + minute);
    Bounds(HoursOf(s, e));
  }

  lemma CoveredByTwo(s: Schedule, day: int, minute: int)
    requires AllWellFormed(s) && 0 <= minute < 1440
    ensures var t := 1440 * day + minute; Covered(s, t) <==> Covers(s, day, t) || Covers(s, day - 1, t)
  {
    hide Covers;
    var t := 1440 * day + minute;
    forall e | Covers(s, e, t) ensures e == day || e == day - 1 {
      OnlyTodayOrYesterday(s, e, day, minute);
    }
  }

  /** The hours check is membership in the shifts that start on any day that is no holiday, on a day that is no holiday. */
  lemma WithinIsCovered(s: Schedule, day: int, minute: int)
    requires AllWellFormed(s) && 0 <= minute < 1440
    ensures IsWithin(s, day, minute) <==> Some(day) !in s.holidays && Covered(s, 1440 * day + minute)
  {
    HoursWellFormed(s, day);
    HoursWellFormed(s, day - 1);
    var t := 1440 * day + minute;
    var previous := if Some(day - 1) in s.holidays then CLOSED else HoursOf(s, day - 1);
    ClosedCoversNothing(1440 + minute);
    ComparisonsAreShifts(HoursOf(s, day), previous, minute);
    CoveredByTwo(s, day, minute);
    CoversByHours(s, day, t);
    CoversByHours(s, day - 1, t);
    hide InShift, WithinWorkingHours, WellFormed, Covered, Covers;
    assert t - 1440 * day == minute && t - 1440 * (day - 1) == 1440 + minute;
    assert Some(day) !in s.holidays ==> (Covers(s, day, t) <==> InShift(HoursOf(s, day), minute));
    assert Covers(s, day - 1, t) <==> InShift(previous, 1440 + minute);
  }

  /** Only which days are holidays matters, not their order or how often they are listed. */
  lemma HolidayOrderIsIrrelevant(working: map<int, WorkingHours>, a: seq<Option<int>>, b: seq<Option<int>>, day: int, minute: int)
    requires 0 <= minute < 1440
    requires forall d :: Some(d) in a <==> Some(d) in b
    ensures IsWithin(Schedule(working, a), day, minute) == IsWithin(Schedule(working, b), day, minute)
  {
    assert HoursOf(Schedule(working, a), day) == HoursOf(Schedule(working, b), day);
    assert HoursOf(Schedule(working, a), day - 1) == HoursOf(Schedule(working, b), day - 1);
  }

  // ----- the handler's check

  /** `anyHours` is the campaign setting that ignores business hours; `day` and `minute` are local. */
  method CampaignWithinHours(anyHours: bool, lookup: Lookup, day: int, minute: int) returns (answer: Answer)
    requires 0 <= minute < 1440
    ensures answer == Answered(anyHours, lookup, day, minute)
    ensures anyHours || (lookup.Found? && lookup.alwaysOpen) ==> answer == Within(true)
    ensures !anyHours && (lookup.Missing? || (!lookup.alwaysOpen && lookup.schedule.None?)) ==> answer == Invalid
    ensures !anyHours && lookup.Found? && !lookup.alwaysOpen && lookup.schedule.Some? && AllWellFormed(lookup.schedule.value) ==>
              answer == Within(Some(day) !in lookup.schedule.value.holidays && Covered(lookup.schedule.value, 1440 * day + minute))
  {
    if anyHours {
      return Within(true);
    }
    if lookup.Missing? {
      return Invalid;
    }
    if lookup.alwaysOpen {
      return Within(true);
    }
    if lookup.schedule.None? {
      return Invalid;
    }
    var s := lookup.schedule.value;
    var previous := HoursOf(s, day - 1);
    for i := 0 to |s.holidays|
      invariant Some(day) !in s.holidays[..i]
      invariant previous == if Some(day - 1) in s.holidays[..i] then CLOSED else HoursOf(s, day - 1)
    {
      if s.holidays[i] == Some(day) {
        assert Some(day) in s.holidays;
        return Within(false);
      }
      if s.holidays[i] == Some(day - 1) {
        previous := CLOSED;
      }
    }
    if AllWellFormed(s) {
      WithinIsCovered(s, day, minute);
    }
    return Within(WithinWorkingHours(Clock(minute), HoursOf(s, day), previous));
  }
}
