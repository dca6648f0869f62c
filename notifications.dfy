/**
 * The reminder engine (`NotificationManager`). Two stores are modelled:
 * the persistent flags (`UserDefaults` keys "alert_<kind>_<monthStart>",
 * kept here as a map from (kind, monthStart) to bool) together with the
 * stored last-open time, and the notification centre's pending requests,
 * keyed by identifier (adding a request with an existing identifier
 * replaces it). The calendar facts of a pass and the results of the two
 * store queries are inputs; a query that throws is `None`.
 */
module Notifications {
  import opened Wrappers
  import opened Expenses
  import opened Calendar
  import Text

  datatype Trigger =
    | Daily(hour: nat, minute: nat)   // UNCalendarNotificationTrigger, repeats
    | Once(afterSeconds: nat)         // UNTimeIntervalNotificationTrigger, no repeat

  datatype Request = Request(title: string, body: string, trigger: Trigger)

  type Flags = map<(AlertKind, int), bool>

  type Pending = map<RequestId, Request>

  /** The two stores a smart-reminder pass reads and writes. */
  datatype Reminders = Reminders(flags: Flags, pending: Pending)

  /**
   * What one pass is told: the epoch second of the first instant of the
   * current month, today's day of the month, the number of days in the month,
   * and the two query results (this month so far; the previous month).
   */
  datatype PassInput = PassInput(
    monthStart: int,
    currentDay: int,
    daysInMonth: int,
    current: Option<seq<Expense>>,
    previous: Option<seq<Expense>>)

  /** The identifiers of the requests the app schedules. */
  datatype RequestId =
    | Milestone10kId | Milestone15kId | EndOfMonthId | ComparisonId | DailyReminderId | InactivityId

  /** The identifier string handed to the notification centre. */
  function IdString(id: RequestId): string {
    match id
    case Milestone10kId => "milestone10k"
    case Milestone15kId => "milestone15k"
    case EndOfMonthId => "endOfMonthAdvice"
    case ComparisonId => "monthlyComparison"
    case DailyReminderId => "dailyReminder"
    case InactivityId => "inactivityReminder"
  }

  /** The identifiers every pass cancels before deciding anew. */
  const SmartIds: set<RequestId> := {Milestone10kId, Milestone15kId, EndOfMonthId, ComparisonId}

  /** The once-per-month alert kinds, each with its own flag per month. */
  datatype AlertKind = Kind10k | Kind15k | KindEndOfMonth | KindComparison

  /** The `milestone:` string of a kind, part of its flag key. */
  function KindName(kind: AlertKind): string {
    match kind
    case Kind10k => "10k"
    case Kind15k => "15k"
    case KindEndOfMonth => "endOfMonth"
    case KindComparison => "monthlyComparison"
  }

  const MoneyLeftAdvice := "You have money left! You can spend it on something useful or entertainment."
  const WithinLimitsAdvice := "Money spent this month was calculated. You are within limits."
  const ControlAdvice := "Control your spendings for the remaining days."

  const DailyReminder := Request("Daily Expense Check", "Don't forget to log your expenses for today!", Daily(20, 0))
  const InactivityReminder := Request("Missing Your Expenses?", "You haven't tracked your expenses today. Don't forget to log them!", Once(1))

  /** 24 hours, in seconds. */
  const InactivityLimit: real := 86400.0

  // ---------------------------------------------------------------------
  // Flag keys

  predicate NoUnderscore(s: string) {
    forall i :: 0 <= i < |s| ==> s[i] != '_'
  }

  /** Distinct request identifiers are distinct strings. */
  lemma IdStringInjective(a: RequestId, b: RequestId)
    requires IdString(a) == IdString(b)
    ensures a == b
  {
    // the lengths and the eleventh characters already tell the six apart
    assert |IdString(a)| == |IdString(b)| && IdString(a)[10] == IdString(b)[10];
  }

  /** The `UserDefaults` key of a flag: "alert_<kind>_<whole seconds of monthStart>". */
  function FlagKey(kind: AlertKind, monthStart: int): string {
    "alert_" + KindName(kind) + "_" + Text.IntToString(monthStart)
  }

  lemma KindNamesDistinct(k1: AlertKind, k2: AlertKind)
    requires KindName(k1) == KindName(k2)
    ensures k1 == k2
  {
    assert |KindName(k1)| == |KindName(k2)| && KindName(k1)[1] == KindName(k2)[1];
  }

  /**
   * Distinct (kind, month) pairs have distinct keys, so keying the flags by
   * the pair loses nothing.
   */
  lemma FlagKeyInjective(k1: AlertKind, m1: int, k2: AlertKind, m2: int)
    requires FlagKey(k1, m1) == FlagKey(k2, m2)
    ensures k1 == k2 && m1 == m2
  {
    KindNameNoUnderscore(k1);
    KindNameNoUnderscore(k2);
    KeyParts(KindName(k1), Text.IntToString(m1), KindName(k2), Text.IntToString(m2));
    KindNamesDistinct(k1, k2);
    Text.IntToStringInjective(m1, m2);
  }

  lemma KindNameNoUnderscore(kind: AlertKind)
    ensures NoUnderscore(KindName(kind))
  {
  }

  /** The parts of a key "alert_<name>_<rest>" are recovered from it when the name has no '_'. */
  lemma KeyParts(n1: string, t1: string, n2: string, t2: string)
    requires NoUnderscore(n1) && NoUnderscore(n2)
    requires "alert_" + n1 + "_" + t1 == "alert_" + n2 + "_" + t2
    ensures n1 == n2 && t1 == t2
  {
    var u1, u2 := n1 + "_" + t1, n2 + "_" + t2;
    assert "alert_" + n1 + "_" + t1 == "alert_" + u1;
    assert "alert_" + n2 + "_" + t2 == "alert_" + u2;
    assert u1 == ("alert_" + u1)[6..];
    assert u2 == ("alert_" + u2)[6..];
    SplitAtUnderscore(n1, t1, n2, t2);
  }

  /** The index of the first '_' in `s`, or `|s|` when there is none. */
  function FirstUnderscore(s: string): (i: nat)
    ensures i <= |s|
  {
    if s == [] || s[0] == '_' then 0 else 1 + FirstUnderscore(s[1..])
  }

  lemma {:induction false} FirstUnderscoreAfter(n: string, t: string)
    requires NoUnderscore(n)
    ensures FirstUnderscore(n + "_" + t) == |n|
  {
    if n != [] {
      assert (n + "_" + t)[1..] == n[1..] + "_" + t;
      FirstUnderscoreAfter(n[1..], t);
    }
  }

  /** A name without '_' followed by '_' is recovered from the joined string, and so is the rest. */
  lemma SplitAtUnderscore(n1: string, t1: string, n2: string, t2: string)
    requires NoUnderscore(n1) && NoUnderscore(n2)
    requires n1 + "_" + t1 == n2 + "_" + t2
    ensures n1 == n2 && t1 == t2
  {
    FirstUnderscoreAfter(n1, t1);
    FirstUnderscoreAfter(n2, t2);
    var u := n1 + "_" + t1;
    assert n1 == u[..|n1|] && t1 == u[|n1| + 1..];
    assert n2 == u[..|n2|] && t2 == u[|n2| + 1..];
  }

  // ---------------------------------------------------------------------
  // The decisions of one pass, as functions of the stores

  /** `UserDefaults.bool(forKey:)`: false for a key never written. */
  predicate Alerted(flags: Flags, kind: AlertKind, month: int) {
    (kind, month) in flags && flags[(kind, month)]
  }

  /** Schedule `id` to fire in one second and mark the flag of (kind, month). */
  function Fire(st: Reminders, kind: AlertKind, month: int, id: RequestId, title: string, body: string): Reminders {
    Reminders(st.flags[(kind, month) := true], st.pending[id := Request(title, body, Once(1))])
  }

  /** Fire once per month: nothing when the flag is already set. */
  function Alert(st: Reminders, kind: AlertKind, month: int, id: RequestId, title: string, body: string): Reminders {
    if Alerted(st.flags, kind, month) then st else Fire(st, kind, month, id, title, body)
  }

  function Milestone10kBody(day: int): string {
    "Today is day " + Text.IntToString(day) + " & you have already spent ₹10,000. Spend the rest of the money wisely."
  }

  function Milestone15kBody(day: int): string {
    "Today is day " + Text.IntToString(day) + " & you have already spent ₹15,000. Please control your spendings."
  }

  /** Milestones: 10k for a total in [10000, 15000), 15k from 15000 on, never both. */
  function MilestoneStep(st: Reminders, total: real, inp: PassInput): Reminders {
    if 10000.0 <= total < 15000.0 then
      Alert(st, Kind10k, inp.monthStart, Milestone10kId, "Spending Alert", Milestone10kBody(inp.currentDay))
    else if total >= 15000.0 then
      Alert(st, Kind15k, inp.monthStart, Milestone15kId, "Spending Alert", Milestone15kBody(inp.currentDay))
    else
      st
  }

  /** The end-of-month advice for a month total. */
  function AdviceBody(total: real): string {
    if total <= 10000.0 then MoneyLeftAdvice
    else if total <= 15000.0 then WithinLimitsAdvice
    else ControlAdvice
  }

  /** End-of-month advice, considered in the last seven days of the month. */
  function EndOfMonthStep(st: Reminders, total: real, inp: PassInput): Reminders {
    if inp.daysInMonth - inp.currentDay <= 7 then
      Alert(st, KindEndOfMonth, inp.monthStart, EndOfMonthId, "End of Month Check", AdviceBody(total))
    else
      st
  }

  /** `Int(prevTotal)` for the positive total the comparison reports. */
  function ComparisonBody(prevTotal: real): string
    requires prevTotal > 0.0
  {
    "Your last month total was ₹" + Text.IntToString(prevTotal.Floor) + ". Try to beat that this month!"
  }

  /**
   * `checkAndScheduleMonthlyComparison`: skipped once shown this month;
   * otherwise the previous month's total is fetched and, when positive,
   * reported. A zero total or a failed fetch leaves the flag unset.
   */
  function ComparisonStep(st: Reminders, inp: PassInput): Reminders {
    if Alerted(st.flags, KindComparison, inp.monthStart) then st
    else
      match inp.previous
      case None => st
      case Some(prev) =>
        var prevTotal := Total(prev);
        if prevTotal > 0.0 then
          Fire(st, KindComparison, inp.monthStart, ComparisonId, "New Month Started", ComparisonBody(prevTotal))
        else
          st
  }

  /** One `scheduleSmartReminders` pass. A failed fetch changes nothing. */
  function SmartPass(st: Reminders, inp: PassInput): Reminders {
    match inp.current
    case None => st
    case Some(expenses) =>
      var total := Total(expenses);
      var cleared := Reminders(st.flags, st.pending - SmartIds);
      ComparisonStep(EndOfMonthStep(MilestoneStep(cleared, total, inp), total, inp), inp)
  }

  // ---------------------------------------------------------------------
  // The manager

  class NotificationManager {
    var flags: Flags
    var pending: Pending
    /** `UserDefaults` "lastAppOpenTime", as seconds since the epoch. */
    var lastAppOpenTime: Option<real>

    constructor ()
      ensures flags == map[] && pending == map[] && lastAppOpenTime == None
    {
      flags, pending, lastAppOpenTime := map[], map[], None;
    }

    function State(): Reminders
      reads this
    {
      Reminders(flags, pending)
    }

    /** `scheduleDailyReminder`: (re)places the 8 PM repeating request. */
    method ScheduleDailyReminder()
      modifies this`pending
      ensures pending == old(pending)[DailyReminderId := DailyReminder]
    {
      pending := pending[DailyReminderId := DailyReminder];
    }

    /**
     * `checkInactivity`: with no stored open time, store `now` and schedule
     * nothing; with one, schedule the inactivity reminder exactly when 24
     * hours or more have passed. A stored time is never overwritten.
     */
    method CheckInactivity(now: real)
      modifies this`pending, this`lastAppOpenTime
      ensures old(lastAppOpenTime).None? ==> lastAppOpenTime == Some(now) && pending == old(pending)
      ensures old(lastAppOpenTime).Some? ==> lastAppOpenTime == old(lastAppOpenTime)
      ensures old(lastAppOpenTime).Some? ==>
        pending == if now - old(lastAppOpenTime).value >= InactivityLimit
                   then old(pending)[InactivityId := InactivityReminder] else old(pending)
    {
      match lastAppOpenTime
      case Some(lastOpen) =>
        var hoursSinceLastOpen := (now - lastOpen) / 3600.0;
        if hoursSinceLastOpen >= 24.0 {
          pending := pending[InactivityId := InactivityReminder];
        }
      case None =>
        lastAppOpenTime := Some(now);
    }

    /** `hasAlertedFor(milestone:month:)`. */
    function HasAlertedFor(kind: AlertKind, month: int): (shown: bool)
      reads this
      ensures shown ==> (kind, month) in flags
    {
      Alerted(flags, kind, month)
    }

    /** `markAlertAsShown`: writes true, and only for this key. */
    method MarkAlertAsShown(kind: AlertKind, month: int)
      modifies this`flags
      ensures flags == old(flags)[(kind, month) := true]
      ensures HasAlertedFor(kind, month)
      ensures forall k :: k in old(flags) && old(flags)[k] ==> k in flags && flags[k]
    {
      flags := flags[(kind, month) := true];
    }

    /** `scheduleNotification`: a one-shot request firing after one second. */
    method ScheduleNotification(id: RequestId, title: string, body: string)
      modifies this`pending
      ensures pending == old(pending)[id := Request(title, body, Once(1))]
    {
      pending := pending[id := Request(title, body, Once(1))];
    }

    /** `scheduleSmartReminders`. */
    method ScheduleSmartReminders(inp: PassInput)
      modifies this`flags, this`pending
      ensures State() == SmartPass(old(State()), inp)
    {
      match inp.current {
        case None =>
          // the fetch threw: the error is logged and the pass ends
        case Some(expenses) =>
          var currentMonthTotal := Total(expenses);
          pending := pending - SmartIds;
          ScheduleMilestone(currentMonthTotal, inp);
          ScheduleEndOfMonthAdvice(currentMonthTotal, inp);
          CheckAndScheduleMonthlyComparison(inp);
      }
    }

    /** Section 2 of `scheduleSmartReminders`: the 10k and 15k milestones. */
    method ScheduleMilestone(currentMonthTotal: real, inp: PassInput)
      modifies this`flags, this`pending
      ensures State() == MilestoneStep(old(State()), currentMonthTotal, inp)
    {
      var startOfMonth := inp.monthStart;
      if 10000.0 <= currentMonthTotal < 15000.0 {
        if !HasAlertedFor(Kind10k, startOfMonth) {
          ScheduleNotification(Milestone10kId, "Spending Alert", Milestone10kBody(inp.currentDay));
          MarkAlertAsShown(Kind10k, startOfMonth);
        }
      } else if currentMonthTotal >= 15000.0 {
        if !HasAlertedFor(Kind15k, startOfMonth) {
          ScheduleNotification(Milestone15kId, "Spending Alert", Milestone15kBody(inp.currentDay));
          MarkAlertAsShown(Kind15k, startOfMonth);
        }
      }
    }

    /** Section 3 of `scheduleSmartReminders`: the advice in the last seven days. */
    method ScheduleEndOfMonthAdvice(currentMonthTotal: real, inp: PassInput)
      modifies this`flags, this`pending
      ensures State() == EndOfMonthStep(old(State()), currentMonthTotal, inp)
    {
      var startOfMonth := inp.monthStart;
      var daysRemaining := inp.daysInMonth - inp.currentDay;
      if daysRemaining <= 7 {
        var body := "";
        if currentMonthTotal <= 10000.0 {
          body := MoneyLeftAdvice;
        } else if currentMonthTotal <= 15000.0 {
          body := WithinLimitsAdvice;
        } else {
          body := ControlAdvice;
        }
        if !HasAlertedFor(KindEndOfMonth, startOfMonth) {
          ScheduleNotification(EndOfMonthId, "End of Month Check", body);
          MarkAlertAsShown(KindEndOfMonth, startOfMonth);
        }
      }
    }

    /** `checkAndScheduleMonthlyComparison`. */
    method CheckAndScheduleMonthlyComparison(inp: PassInput)
      modifies this`flags, this`pending
      ensures State() == ComparisonStep(old(State()), inp)
    {
      var currentMonthStart := inp.monthStart;
      if HasAlertedFor(KindComparison, currentMonthStart) {
        return;
      }
      match inp.previous {
        case None =>
          // the fetch threw: the error is logged
        case Some(prevExpenses) =>
          var prevTotal := Total(prevExpenses);
          if prevTotal > 0.0 {
            ScheduleNotification(ComparisonId, "New Month Started", ComparisonBody(prevTotal));
            MarkAlertAsShown(KindComparison, currentMonthStart);
          }
      }
    }
  }

  // ---------------------------------------------------------------------
  // What each step leaves alone

  /** Pending request `id` is the same in `before` and `after`. */
  predicate SamePending(before: Pending, after: Pending, id: RequestId) {
    (id in after <==> id in before) && (id in before ==> after[id] == before[id])
  }

  /**
   * `after` keeps every flag `before` has set, and every entry it writes anew
   * is true and belongs to `month`.
   */
  predicate FlagsGrow(before: Flags, after: Flags, month: int) {
    && (forall key :: key in before && before[key] ==> key in after && after[key])
    && (forall key :: key in after ==> (key in before && after[key] == before[key]) || (after[key] && key.1 == month))
  }

  lemma FlagsGrowTransitive(a: Flags, b: Flags, c: Flags, month: int)
    requires FlagsGrow(a, b, month) && FlagsGrow(b, c, month)
    ensures FlagsGrow(a, c, month)
  {
  }

  lemma AlertKeeps(st: Reminders, kind: AlertKind, month: int, id: RequestId, title: string, body: string,
                   id': RequestId, kind': AlertKind, month': int)
    ensures var after := Alert(st, kind, month, id, title, body);
      && (id' != id ==> SamePending(st.pending, after.pending, id'))
      && (kind' != kind ==> Alerted(after.flags, kind', month') == Alerted(st.flags, kind', month'))
      && FlagsGrow(st.flags, after.flags, month)
  {
    if !Alerted(st.flags, kind, month) {
      FireKeeps(st, kind, month, id, title, body, id', kind', month');
    }
  }

  lemma FireKeeps(st: Reminders, kind: AlertKind, month: int, id: RequestId, title: string, body: string,
                  id': RequestId, kind': AlertKind, month': int)
    ensures var after := Fire(st, kind, month, id, title, body);
      && (id' != id ==> SamePending(st.pending, after.pending, id'))
      && (kind' != kind ==> Alerted(after.flags, kind', month') == Alerted(st.flags, kind', month'))
      && FlagsGrow(st.flags, after.flags, month)
  {
    var flags := st.flags[(kind, month) := true];
    assert forall key :: key in st.flags && st.flags[key] ==> key in flags && flags[key];
    assert forall key :: key in flags ==> (key in st.flags && flags[key] == st.flags[key]) || (flags[key] && key.1 == month);
  }

  lemma MilestoneStepKeeps(st: Reminders, total: real, inp: PassInput, id: RequestId, kind: AlertKind, month: int)
    ensures var after := MilestoneStep(st, total, inp);
      && (id != Milestone10kId && id != Milestone15kId ==> SamePending(st.pending, after.pending, id))
      && (kind != Kind10k && kind != Kind15k ==> Alerted(after.flags, kind, month) == Alerted(st.flags, kind, month))
      && FlagsGrow(st.flags, after.flags, inp.monthStart)
  {
    if 10000.0 <= total < 15000.0 {
      AlertKeeps(st, Kind10k, inp.monthStart, Milestone10kId, "Spending Alert", Milestone10kBody(inp.currentDay), id, kind, month);
    } else if total >= 15000.0 {
      AlertKeeps(st, Kind15k, inp.monthStart, Milestone15kId, "Spending Alert", Milestone15kBody(inp.currentDay), id, kind, month);
    }
  }

  lemma EndOfMonthStepKeeps(st: Reminders, total: real, inp: PassInput, id: RequestId, kind: AlertKind, month: int)
    ensures var after := EndOfMonthStep(st, total, inp);
      && (id != EndOfMonthId ==> SamePending(st.pending, after.pending, id))
      && (kind != KindEndOfMonth ==> Alerted(after.flags, kind, month) == Alerted(st.flags, kind, month))
      && FlagsGrow(st.flags, after.flags, inp.monthStart)
  {
  }

  lemma ComparisonStepKeeps(st: Reminders, inp: PassInput, id: RequestId, kind: AlertKind, month: int)
    ensures var after := ComparisonStep(st, inp);
      && (id != ComparisonId ==> SamePending(st.pending, after.pending, id))
      && (kind != KindComparison ==> Alerted(after.flags, kind, month) == Alerted(st.flags, kind, month))
      && FlagsGrow(st.flags, after.flags, inp.monthStart)
  {
    if !Alerted(st.flags, KindComparison, inp.monthStart) && inp.previous.Some? && Total(inp.previous.value) > 0.0 {
      FireKeeps(st, KindComparison, inp.monthStart, ComparisonId, "New Month Started",
                ComparisonBody(Total(inp.previous.value)), id, kind, month);
    }
  }

  // ---------------------------------------------------------------------
  // What each step does with its own kind

  lemma AlertEffect(st: Reminders, kind: AlertKind, month: int, id: RequestId, title: string, body: string)
    ensures var after := Alert(st, kind, month, id, title, body);
      && (id in after.pending <==> id in st.pending || !Alerted(st.flags, kind, month))
      && (!Alerted(st.flags, kind, month) ==> after.pending[id] == Request(title, body, Once(1)))
      && Alerted(after.flags, kind, month)
      && (Alerted(st.flags, kind, month) ==> after == st)
  {
  }

  lemma MilestoneStepEffect(st: Reminders, total: real, inp: PassInput)
    ensures var after := MilestoneStep(st, total, inp); var m := inp.monthStart;
      && (Milestone10kId in after.pending <==>
            Milestone10kId in st.pending || (10000.0 <= total < 15000.0 && !Alerted(st.flags, Kind10k, m)))
      && (Milestone15kId in after.pending <==>
            Milestone15kId in st.pending || (total >= 15000.0 && !Alerted(st.flags, Kind15k, m)))
      && (10000.0 <= total < 15000.0 ==> Alerted(after.flags, Kind10k, m))
      && (total >= 15000.0 ==> Alerted(after.flags, Kind15k, m))
      && (var quiet := (10000.0 <= total < 15000.0 ==> Alerted(st.flags, Kind10k, m))
                       && (total >= 15000.0 ==> Alerted(st.flags, Kind15k, m));
          quiet ==> after == st)
  {
    var m := inp.monthStart;
    if 10000.0 <= total < 15000.0 {
      AlertEffect(st, Kind10k, m, Milestone10kId, "Spending Alert", Milestone10kBody(inp.currentDay));
      AlertKeeps(st, Kind10k, m, Milestone10kId, "Spending Alert", Milestone10kBody(inp.currentDay), Milestone15kId, Kind15k, m);
    } else if total >= 15000.0 {
      AlertEffect(st, Kind15k, m, Milestone15kId, "Spending Alert", Milestone15kBody(inp.currentDay));
      AlertKeeps(st, Kind15k, m, Milestone15kId, "Spending Alert", Milestone15kBody(inp.currentDay), Milestone10kId, Kind10k, m);
    }
  }

  lemma EndOfMonthStepEffect(st: Reminders, total: real, inp: PassInput)
    ensures var after := EndOfMonthStep(st, total, inp); var m := inp.monthStart;
      var due := inp.daysInMonth - inp.currentDay <= 7;
      && (EndOfMonthId in after.pending <==> EndOfMonthId in st.pending || (due && !Alerted(st.flags, KindEndOfMonth, m)))
      && (due && !Alerted(st.flags, KindEndOfMonth, m) ==> after.pending[EndOfMonthId].body == AdviceBody(total))
      && (due ==> Alerted(after.flags, KindEndOfMonth, m))
      && (!due || Alerted(st.flags, KindEndOfMonth, m) ==> after == st)
  {
    if inp.daysInMonth - inp.currentDay <= 7 {
      AlertEffect(st, KindEndOfMonth, inp.monthStart, EndOfMonthId, "End of Month Check", AdviceBody(total));
    }
  }

  lemma ComparisonStepEffect(st: Reminders, inp: PassInput)
    ensures var after := ComparisonStep(st, inp); var m := inp.monthStart;
      var fires := !Alerted(st.flags, KindComparison, m) && inp.previous.Some? && Total(inp.previous.value) > 0.0;
      && (ComparisonId in after.pending <==> ComparisonId in st.pending || fires)
      && (Alerted(after.flags, KindComparison, m) <==> Alerted(st.flags, KindComparison, m) || fires)
      && (!fires ==> after == st)
  {
  }

  /** The intermediate stores of a successful pass. */
  datatype Stages = Stages(cleared: Reminders, milestones: Reminders, endOfMonth: Reminders, after: Reminders)

  function PassStages(st: Reminders, inp: PassInput): (s: Stages)
    requires inp.current.Some?
    ensures s.after == SmartPass(st, inp)
  {
    var total := Total(inp.current.value);
    var cleared := Reminders(st.flags, st.pending - SmartIds);
    var s1 := MilestoneStep(cleared, total, inp);
    var s2 := EndOfMonthStep(s1, total, inp);
    Stages(cleared, s1, s2, ComparisonStep(s2, inp))
  }

  // ---------------------------------------------------------------------
  // Properties of a pass

  /** A pass whose fetch fails removes, schedules and marks nothing. */
  lemma FailedFetchChangesNothing(st: Reminders, inp: PassInput)
    requires inp.current.None?
    ensures SmartPass(st, inp) == st
  {
  }

  /**
   * At most one milestone per pass: a total below 10000 schedules neither, a
   * total in [10000, 15000) only the 10k one, a total from 15000 on only the
   * 15k one.
   */
  lemma MilestonesExclusive(st: Reminders, inp: PassInput)
    requires inp.current.Some?
    ensures var after := SmartPass(st, inp);
      var total := Total(inp.current.value);
      && !(Milestone10kId in after.pending && Milestone15kId in after.pending)
      && (total < 10000.0 ==> Milestone10kId !in after.pending && Milestone15kId !in after.pending)
      && (total < 15000.0 ==> Milestone15kId !in after.pending)
      && (total >= 15000.0 ==> Milestone10kId !in after.pending)
  {
    var total := Total(inp.current.value);
    var s := PassStages(st, inp);
    assert Milestone10kId !in s.cleared.pending && Milestone15kId !in s.cleared.pending;
    var m10, m15 := Milestone10kId in s.milestones.pending, Milestone15kId in s.milestones.pending;
    assert !(m10 && m15) && (total < 10000.0 ==> !m10 && !m15) && (total < 15000.0 ==> !m15) && (total >= 15000.0 ==> !m10) by {
      MilestoneStepEffect(s.cleared, total, inp);
    }
    assert Milestone10kId in s.after.pending <==> Milestone10kId in s.milestones.pending by {
      EndOfMonthStepKeeps(s.milestones, total, inp, Milestone10kId, Kind10k, 0);
      ComparisonStepKeeps(s.endOfMonth, inp, Milestone10kId, Kind10k, 0);
    }
    assert Milestone15kId in s.after.pending <==> Milestone15kId in s.milestones.pending by {
      EndOfMonthStepKeeps(s.milestones, total, inp, Milestone15kId, Kind10k, 0);
      ComparisonStepKeeps(s.endOfMonth, inp, Milestone15kId, Kind10k, 0);
    }
  }

  /**
   * A due milestone is scheduled: after a successful pass the 10k milestone
   * is pending exactly when the total lies in [10000, 15000) and its flag
   * was unset this month, and the 15k milestone exactly when the total is
   * at least 15000 and its flag was unset.
   */
  lemma DueMilestoneScheduled(st: Reminders, inp: PassInput)
    requires inp.current.Some?
    ensures var after := SmartPass(st, inp); var total := Total(inp.current.value); var m := inp.monthStart;
      && (Milestone10kId in after.pending <==> 10000.0 <= total < 15000.0 && !Alerted(st.flags, Kind10k, m))
      && (Milestone15kId in after.pending <==> total >= 15000.0 && !Alerted(st.flags, Kind15k, m))
  {
    var total := Total(inp.current.value);
    var s := PassStages(st, inp);
    assert Milestone10kId !in s.cleared.pending && Milestone15kId !in s.cleared.pending;
    MilestoneStepEffect(s.cleared, total, inp);
    assert Milestone10kId in s.after.pending <==> Milestone10kId in s.milestones.pending by {
      EndOfMonthStepKeeps(s.milestones, total, inp, Milestone10kId, Kind10k, 0);
      ComparisonStepKeeps(s.endOfMonth, inp, Milestone10kId, Kind10k, 0);
    }
    assert Milestone15kId in s.after.pending <==> Milestone15kId in s.milestones.pending by {
      EndOfMonthStepKeeps(s.milestones, total, inp, Milestone15kId, Kind10k, 0);
      ComparisonStepKeeps(s.endOfMonth, inp, Milestone15kId, Kind10k, 0);
    }
  }

  /**
   * Every successful pass cancels exactly the four smart identifiers: any
   * other pending request (the daily and the inactivity reminders among
   * them) is kept as it was, and any other identifier stays absent.
   */
  lemma CancelsOnlySmartIds(st: Reminders, inp: PassInput, id: RequestId)
    requires inp.current.Some?
    requires id !in SmartIds
    ensures SamePending(st.pending, SmartPass(st, inp).pending, id)
  {
    var total := Total(inp.current.value);
    var s := PassStages(st, inp);
    MilestoneStepKeeps(s.cleared, total, inp, id, Kind10k, 0);
    EndOfMonthStepKeeps(s.milestones, total, inp, id, Kind10k, 0);
    ComparisonStepKeeps(s.endOfMonth, inp, id, Kind10k, 0);
  }

  /**
   * Each of the four smart requests is pending after a successful pass only
   * if its month's flag was unset before the pass, and then the flag is set
   * after it.
   */
  lemma ScheduledOnlyWhenUnflagged(st: Reminders, inp: PassInput)
    requires inp.current.Some?
    ensures var after := SmartPass(st, inp); var m := inp.monthStart;
      && (Milestone10kId in after.pending ==> !Alerted(st.flags, Kind10k, m) && Alerted(after.flags, Kind10k, m))
      && (Milestone15kId in after.pending ==> !Alerted(st.flags, Kind15k, m) && Alerted(after.flags, Kind15k, m))
      && (EndOfMonthId in after.pending ==> !Alerted(st.flags, KindEndOfMonth, m) && Alerted(after.flags, KindEndOfMonth, m))
      && (ComparisonId in after.pending ==> !Alerted(st.flags, KindComparison, m) && Alerted(after.flags, KindComparison, m))
  {
    var total := Total(inp.current.value);
    var m := inp.monthStart;
    var s := PassStages(st, inp);
    var after := s.after;
    assert Milestone10kId in after.pending ==> !Alerted(st.flags, Kind10k, m) && Alerted(after.flags, Kind10k, m) by {
      MilestoneStepEffect(s.cleared, total, inp);
      EndOfMonthStepKeeps(s.milestones, total, inp, Milestone10kId, Kind10k, m);
      ComparisonStepKeeps(s.endOfMonth, inp, Milestone10kId, Kind10k, m);
    }
    assert Milestone15kId in after.pending ==> !Alerted(st.flags, Kind15k, m) && Alerted(after.flags, Kind15k, m) by {
      MilestoneStepEffect(s.cleared, total, inp);
      EndOfMonthStepKeeps(s.milestones, total, inp, Milestone15kId, Kind15k, m);
      ComparisonStepKeeps(s.endOfMonth, inp, Milestone15kId, Kind15k, m);
    }
    assert EndOfMonthId in after.pending ==> !Alerted(st.flags, KindEndOfMonth, m) && Alerted(after.flags, KindEndOfMonth, m) by {
      MilestoneStepKeeps(s.cleared, total, inp, EndOfMonthId, KindEndOfMonth, m);
      EndOfMonthStepEffect(s.milestones, total, inp);
      ComparisonStepKeeps(s.endOfMonth, inp, EndOfMonthId, KindEndOfMonth, m);
    }
    assert ComparisonId in after.pending ==> !Alerted(st.flags, KindComparison, m) && Alerted(after.flags, KindComparison, m) by {
      MilestoneStepKeeps(s.cleared, total, inp, ComparisonId, KindComparison, m);
      EndOfMonthStepKeeps(s.milestones, total, inp, ComparisonId, KindComparison, m);
      ComparisonStepEffect(s.endOfMonth, inp);
    }
  }

  /**
   * The end-of-month advice is scheduled exactly when at most seven days
   * remain and it was not yet shown this month, whatever the milestones
   * did, and its text follows the spending band.
   */
  lemma EndOfMonthAdvice(st: Reminders, inp: PassInput)
    requires inp.current.Some?
    ensures var after := SmartPass(st, inp);
      (EndOfMonthId in after.pending <==>
         inp.daysInMonth - inp.currentDay <= 7 && !Alerted(st.flags, KindEndOfMonth, inp.monthStart))
    ensures var after := SmartPass(st, inp); var total := Total(inp.current.value);
      EndOfMonthId in after.pending ==>
        after.pending[EndOfMonthId].body ==
          if total <= 10000.0 then MoneyLeftAdvice
          else if total <= 15000.0 then WithinLimitsAdvice
          else ControlAdvice
  {
    var total := Total(inp.current.value);
    var m := inp.monthStart;
    var s := PassStages(st, inp);
    MilestoneStepKeeps(s.cleared, total, inp, EndOfMonthId, KindEndOfMonth, m);
    EndOfMonthStepEffect(s.milestones, total, inp);
    ComparisonStepKeeps(s.endOfMonth, inp, EndOfMonthId, KindEndOfMonth, m);
  }

  /**
   * The comparison is scheduled exactly when it was not shown this month
   * and the previous month's fetch gave a strictly positive total; with a
   * zero total the flag stays unset, so a later pass tries again.
   */
  lemma ComparisonNeedsPositiveTotal(st: Reminders, inp: PassInput)
    requires inp.current.Some?
    ensures var after := SmartPass(st, inp);
      (ComparisonId in after.pending <==>
         !Alerted(st.flags, KindComparison, inp.monthStart) && inp.previous.Some? && Total(inp.previous.value) > 0.0)
    ensures var after := SmartPass(st, inp);
      inp.previous.Some? && Total(inp.previous.value) == 0.0 ==>
        Alerted(after.flags, KindComparison, inp.monthStart) == Alerted(st.flags, KindComparison, inp.monthStart)
  {
    var total := Total(inp.current.value);
    var m := inp.monthStart;
    var s := PassStages(st, inp);
    MilestoneStepKeeps(s.cleared, total, inp, ComparisonId, KindComparison, m);
    EndOfMonthStepKeeps(s.milestones, total, inp, ComparisonId, KindComparison, m);
    ComparisonStepEffect(s.endOfMonth, inp);
  }

  /**
   * Flags only ever go from unset to true: every flag set before a pass is
   * still set, and every entry the pass writes is true and belongs to the
   * pass's month.
   */
  lemma FlagsMonotone(st: Reminders, inp: PassInput)
    ensures FlagsGrow(st.flags, SmartPass(st, inp).flags, inp.monthStart)
  {
    if inp.current.Some? {
      var total := Total(inp.current.value);
      var s := PassStages(st, inp);
      MilestoneStepKeeps(s.cleared, total, inp, DailyReminderId, Kind10k, 0);
      EndOfMonthStepKeeps(s.milestones, total, inp, DailyReminderId, Kind10k, 0);
      ComparisonStepKeeps(s.endOfMonth, inp, DailyReminderId, Kind10k, 0);
      FlagsGrowTransitive(st.flags, s.milestones.flags, s.endOfMonth.flags, inp.monthStart);
      FlagsGrowTransitive(st.flags, s.endOfMonth.flags, s.after.flags, inp.monthStart);
    }
  }

  /** After a successful pass the flags of every kind the pass was due to fire are set. */
  lemma PassMarks(st: Reminders, inp: PassInput)
    requires inp.current.Some?
    ensures var after := SmartPass(st, inp); var total := Total(inp.current.value); var m := inp.monthStart;
      && (10000.0 <= total < 15000.0 ==> Alerted(after.flags, Kind10k, m))
      && (total >= 15000.0 ==> Alerted(after.flags, Kind15k, m))
      && (inp.daysInMonth - inp.currentDay <= 7 ==> Alerted(after.flags, KindEndOfMonth, m))
      && (!Alerted(after.flags, KindComparison, m) ==>
            inp.previous.None? || Total(inp.previous.value) <= 0.0)
  {
    var total := Total(inp.current.value);
    var m := inp.monthStart;
    var s := PassStages(st, inp);
    var after := s.after;
    assert 10000.0 <= total < 15000.0 ==> Alerted(after.flags, Kind10k, m) by {
      MilestoneStepEffect(s.cleared, total, inp);
      EndOfMonthStepKeeps(s.milestones, total, inp, DailyReminderId, Kind10k, m);
      ComparisonStepKeeps(s.endOfMonth, inp, DailyReminderId, Kind10k, m);
    }
    assert total >= 15000.0 ==> Alerted(after.flags, Kind15k, m) by {
      MilestoneStepEffect(s.cleared, total, inp);
      EndOfMonthStepKeeps(s.milestones, total, inp, DailyReminderId, Kind15k, m);
      ComparisonStepKeeps(s.endOfMonth, inp, DailyReminderId, Kind15k, m);
    }
    assert inp.daysInMonth - inp.currentDay <= 7 ==> Alerted(after.flags, KindEndOfMonth, m) by {
      EndOfMonthStepEffect(s.milestones, total, inp);
      ComparisonStepKeeps(s.endOfMonth, inp, DailyReminderId, KindEndOfMonth, m);
    }
    ComparisonStepEffect(s.endOfMonth, inp);
  }

  /**
   * Running the same pass again in the same month with the same inputs
   * schedules nothing: the second pass only cancels the four smart
   * requests and leaves every flag as the first pass left it.
   */
  lemma RerunSchedulesNothing(st: Reminders, inp: PassInput)
    requires inp.current.Some?
    ensures var once := SmartPass(st, inp);
      SmartPass(once, inp) == Reminders(once.flags, once.pending - SmartIds)
  {
    var once := SmartPass(st, inp);
    var total := Total(inp.current.value);
    PassMarks(st, inp);
    var s := PassStages(once, inp);
    MilestoneStepEffect(s.cleared, total, inp);
    EndOfMonthStepEffect(s.milestones, total, inp);
    ComparisonStepEffect(s.endOfMonth, inp);
  }

  // ---------------------------------------------------------------------
  // The previous month's query

  /**
   * `previousMonthStart` plus one month minus one day: the first instant of
   * that month's last day.
   */
  function PreviousMonthEnd(prevStart: DateTime): (end: DateTime)
    requires 1 <= prevStart.month <= 12
    ensures SameMonth(end, prevStart) && end.second == prevStart.second
    ensures end.day == DaysInMonth(prevStart.year, prevStart.month)
    ensures Valid(prevStart) ==> Valid(end)
    ensures MonthStart(prevStart) ==> Valid(NextMonth(prevStart)) && end == PreviousDay(NextMonth(prevStart))
  {
    prevStart.(day := DaysInMonth(prevStart.year, prevStart.month))
  }

  /** A month's first instant. */
  predicate MonthStart(d: DateTime) {
    Valid(d) && d.day == 1 && d.second == 0
  }

  /** The fetch predicate as written: `date >= previousMonthStart AND date <= previousMonthEnd`. */
  predicate InQueryAsWritten(e: Expense, prevStart: DateTime)
    requires MonthStart(prevStart)
  {
    e.date.Some? && NotAfter(prevStart, e.date.value) && NotAfter(e.date.value, PreviousMonthEnd(prevStart))
  }

  /** What the previous month's fetch returns as written. */
  function PreviousMonthExpensesAsWritten(store: seq<Expense>, prevStart: DateTime): (r: seq<Expense>)
    requires MonthStart(prevStart)
    ensures forall e :: e in r <==> e in store && InQueryAsWritten(e, prevStart)
  {
    if store == [] then []
    else
      var rest := PreviousMonthExpensesAsWritten(store[1..], prevStart);
      assert forall e :: e in store <==> e == store[0] || e in store[1..];
      if InQueryAsWritten(store[0], prevStart) then [store[0]] + rest else rest
  }

  /** The previous month's expenses: every dated expense in the month of `prevStart`. */
  function PreviousMonthExpenses(store: seq<Expense>, prevStart: DateTime): (r: seq<Expense>)
    requires MonthStart(prevStart)
    ensures forall e :: e in r <==> e in store && e.date.Some? && SameMonth(e.date.value, prevStart)
  {
    if store == [] then []
    else
      var rest := PreviousMonthExpenses(store[1..], prevStart);
      assert forall e :: e in store <==> e == store[0] || e in store[1..];
      if store[0].date.Some? && SameMonth(store[0].date.value, prevStart) then [store[0]] + rest else rest
  }

  /**
   * The query as written returns only expenses of the previous month, and
   * misses exactly those dated on its last day after midnight.
   */
  lemma AsWrittenMissesLastDay(store: seq<Expense>, prevStart: DateTime, e: Expense)
    requires MonthStart(prevStart)
    requires e in store && e.date.Some? && Valid(e.date.value)
    ensures e in PreviousMonthExpensesAsWritten(store, prevStart) ==> e in PreviousMonthExpenses(store, prevStart)
    ensures var d := e.date.value;
      (e in PreviousMonthExpenses(store, prevStart) && e !in PreviousMonthExpensesAsWritten(store, prevStart)) <==>
        (SameMonth(d, prevStart) && d.day == DaysInMonth(prevStart.year, prevStart.month) && d.second > 0)
  {
  }

  /**
   * An expense of 500 on the evening of January 31 is the previous month's
   * only spending on February's first pass: the query as written finds
   * nothing, so no comparison is scheduled, where the whole month's fetch
   * reports it.
   */
  lemma LastEveningExpenseMissed()
    ensures var prevStart := DateTime(2025, 1, 1, 0);
      var e := Expense(1, Some("Dinner"), 500.0, Some(DateTime(2025, 1, 31, 72000)), Some("Food"));
      var asWritten := PassInput(0, 1, 28, Some([]), Some(PreviousMonthExpensesAsWritten([e], prevStart)));
      var intended := PassInput(0, 1, 28, Some([]), Some(PreviousMonthExpenses([e], prevStart)));
      var empty := Reminders(map[], map[]);
      && PreviousMonthExpensesAsWritten([e], prevStart) == []
      && PreviousMonthExpenses([e], prevStart) == [e]
      && ComparisonId !in SmartPass(empty, asWritten).pending
      && ComparisonId in SmartPass(empty, intended).pending
  {
    var prevStart := DateTime(2025, 1, 1, 0);
    var e := Expense(1, Some("Dinner"), 500.0, Some(DateTime(2025, 1, 31, 72000)), Some("Food"));
    assert [e][1..] == [];
    assert Total([e]) == 500.0;
    var empty := Reminders(map[], map[]);
    ComparisonNeedsPositiveTotal(empty, PassInput(0, 1, 28, Some([]), Some(PreviousMonthExpensesAsWritten([e], prevStart))));
    ComparisonNeedsPositiveTotal(empty, PassInput(0, 1, 28, Some([]), Some(PreviousMonthExpenses([e], prevStart))));
  }

  /**
   * With the whole previous month fetched and no negative amount, any
   * positive expense of that month makes a pass schedule the comparison,
   * unless it was already shown this month.
   */
  lemma PreviousSpendingReported(st: Reminders, inp: PassInput, store: seq<Expense>, prevStart: DateTime, e: Expense)
    requires MonthStart(prevStart) && NonNegative(store)
    requires inp.current.Some? && inp.previous == Some(PreviousMonthExpenses(store, prevStart))
    requires e in store && e.date.Some? && SameMonth(e.date.value, prevStart) && e.amount > 0.0
    requires !Alerted(st.flags, KindComparison, inp.monthStart)
    ensures ComparisonId in SmartPass(st, inp).pending
  {
    var prev := PreviousMonthExpenses(store, prevStart);
    assert NonNegative(prev) by {
      forall i | 0 <= i < |prev| ensures prev[i].amount >= 0.0 {
        assert prev[i] in store;
      }
    }
    MemberBelowTotal(prev, e);
    ComparisonNeedsPositiveTotal(st, inp);
  }
}
