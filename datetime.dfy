/**
 * The date/time picker (`DatetimePicker` in src/components/Inputs/Datetime.tsx):
 * two state cells, the selected date and the text of the time input, updated by a
 * time edit and by a calendar day selection; after each update an effect hands the
 * selected date, when there is one, to the owner through `setDatetime`.
 *
 * The pure functions below say what one event does to the two cells; the class
 * `DatetimePicker` performs the same updates on fields and is proved against them.
 */
module Datetime {
  import opened Wrappers
  import opened Timestamps
  import opened TimeParse

  /** The time shown when the owner supplies no `defaultTime`. */
  const DefaultTime: string := "15:00"

  /** `new Date('1900-01-01')`, the earliest day the calendar offers. */
  const Earliest: Timestamp := At(1900, 0, 1, 0, 0)

  /** Two valid timestamps fall on the same calendar day. */
  predicate SameDay(a: Timestamp, b: Timestamp) {
    a.At? && b.At? && a.year == b.year && a.month == b.month && a.day == b.day
  }

  /**
   * `new Date(base.getFullYear(), base.getMonth(), base.getDate(), hours, minutes)`:
   * the day of `base` at the given time; invalid as soon as any argument is `NaN`
   * (an `undefined` argument is first converted to `NaN`, see `ToNumber`).
   */
  function NewDate(base: Timestamp, hours: Number, minutes: Number): (r: Timestamp)
    ensures r.At? <==> base.At? && hours.Num? && minutes.Num?
    ensures r.At? ==> SameDay(r, base) && r.hour == hours.n && r.minute == minutes.n
  {
    if base.Invalid? || hours.NaN? || minutes.NaN? then Invalid
    else At(base.year, base.month, base.day, hours.n, minutes.n)
  }

  /** The two state cells: `selected` (absent until a day is picked) and `timeValue`. */
  datatype Picker = Picker(selected: Option<Timestamp>, timeValue: string)

  /**
   * What an event handler leaves behind: the next state, and whether it called a
   * state setter at all (only then does the component re-render and the effect run).
   */
  datatype Reaction = Reaction(next: Picker, rerendered: bool)

  /** The state on mount: nothing selected, the time input showing the default time. */
  function Initial(defaultTime: Option<string>): Picker {
    Picker(None, if defaultTime.Some? then defaultTime.value else DefaultTime)
  }

  /** `handleTimeChange`: the time input now holds `time`. */
  function TimeChange(p: Picker, time: string): Reaction {
    if p.selected.None? then
      Reaction(Picker(None, time), true)
    else
      var hm := ParseTime(time);
      if !PassesNaNGuard(hm) then Reaction(p, false)
      else Reaction(Picker(Some(NewDate(p.selected.value, hm.0, ToNumber(hm.1))), time), true)
  }

  /** `handleDaySelect`: the calendar reports `date` (absent when the day is deselected). */
  function DaySelect(p: Picker, date: Option<Timestamp>): Reaction {
    if p.timeValue == "" || date.None? then
      Reaction(Picker(date, p.timeValue), true)
    else
      var hm := ParseTime(p.timeValue);
      Reaction(Picker(Some(NewDate(date.value, hm.0, ToNumber(hm.1))), p.timeValue), true)
  }

  /**
   * The effect on `[selected, timeValue]`: after a re-render, `setDatetime` is called
   * with the selected date if there is one; otherwise the owner is not called.
   */
  function Emitted(r: Reaction): Option<Timestamp> {
    if r.rerendered then r.next.selected else None
  }

  /** The calendar's `disabled` matcher: `date <= now || date < new Date('1900-01-01')`. */
  predicate Disabled(date: Timestamp, now: Timestamp) {
    AtOrBefore(date, now) || Before(date, Earliest)
  }

  // ---------------------------------------------------------------- time edits

  /** With no day selected, a time edit is buffered as typed, unvalidated, and nothing is emitted. */
  lemma TimeChangeWithoutDate(p: Picker, time: string)
    requires p.selected.None?
    ensures TimeChange(p, time).next == Picker(None, time)
    ensures Emitted(TimeChange(p, time)) == None
  {
  }

  /**
   * With a day selected, a time whose hours are `NaN`, or whose minutes piece exists
   * and is `NaN`, is ignored altogether.
   */
  lemma TimeChangeMalformedIgnored(p: Picker, time: string)
    requires p.selected.Some?
    requires ParseTime(time).0.NaN? || ParseTime(time).1 == Some(NaN)
    ensures TimeChange(p, time).next == p
    ensures Emitted(TimeChange(p, time)) == None
  {
  }

  /**
   * With a day selected, a time with parseable hours and no `':'` is not ignored:
   * `minutes` is `undefined`, which passes the `NaN` guard, so the selection becomes
   * an invalid date, the text is stored, and the invalid date is emitted.
   */
  lemma TimeChangeWithoutMinutes(p: Picker, time: string)
    requires p.selected.Some?
    requires ':' !in time && ParseInt(time).Num?
    ensures TimeChange(p, time).next == Picker(Some(Invalid), time)
    ensures Emitted(TimeChange(p, time)) == Some(Invalid)
  {
    NoColonNoMinutes(time);
  }

  /** For instance, typing just an hour such as `"10"` while a day is selected emits an invalid date. */
  lemma HourOnlyEditGivesInvalid(p: Picker, hour: string)
    requires p.selected.Some?
    requires hour != [] && AllDigits(hour)
    ensures TimeChange(p, hour).next == Picker(Some(Invalid), hour)
    ensures Emitted(TimeChange(p, hour)) == Some(Invalid)
  {
    HourOnlyParts(hour);
  }

  /**
   * With a valid day selected, entering `"HH:MM"` moves the selection to that time on
   * the same day, stores the text, and emits the new selection.
   */
  lemma TimeChangeSetsTime(p: Picker, hours: nat, minutes: nat)
    requires p.selected.Some? && p.selected.value.At?
    requires hours < 24 && minutes < 60
    ensures var r := TimeChange(p, FormatTime(hours, minutes));
      && r.next.timeValue == FormatTime(hours, minutes)
      && r.next.selected.Some?
      && SameDay(r.next.selected.value, p.selected.value)
      && r.next.selected.value.hour == hours && r.next.selected.value.minute == minutes
      && Emitted(r) == r.next.selected
  {
    ParseFormatTime(hours, minutes);
  }

  /**
   * A time edit emits exactly when a day is selected and the time passes the `NaN`
   * guard (hours not `NaN`, minutes not `NaN` or missing); the emitted date is valid
   * exactly when the selected day was valid and both parts are numbers.
   */
  lemma TimeChangeEmitsIff(p: Picker, time: string)
    ensures Emitted(TimeChange(p, time)).Some? <==> p.selected.Some? && PassesNaNGuard(ParseTime(time))
    ensures Emitted(TimeChange(p, time)).Some? ==>
      (Emitted(TimeChange(p, time)).value.At? <==> p.selected.value.At? && IsNumeric(ParseTime(time)))
    ensures Emitted(TimeChange(p, time)).Some? ==> Emitted(TimeChange(p, time)) == TimeChange(p, time).next.selected
  {
  }

  /** Once the selection is an invalid date, no time edit can make it valid again. */
  lemma InvalidSelectionPersists(p: Picker, time: string)
    requires p.selected == Some(Invalid)
    ensures TimeChange(p, time).next.selected == Some(Invalid)
  {
  }

  // ---------------------------------------------------------------- day selection

  /** Deselecting the day clears the selection and keeps the time text. */
  lemma DaySelectNone(p: Picker)
    ensures DaySelect(p, None).next == Picker(None, p.timeValue)
  {
  }

  /** With an empty time text, the picked day is adopted unchanged. */
  lemma DaySelectEmptyTime(p: Picker, date: Timestamp)
    requires p.timeValue == ""
    ensures DaySelect(p, Some(date)).next == Picker(Some(date), "")
  {
  }

  /** A buffered `"HH:MM"` is applied to the picked day at once. */
  lemma DaySelectAppliesTime(p: Picker, date: Timestamp, hours: nat, minutes: nat)
    requires date.At?
    requires hours < 24 && minutes < 60
    requires p.timeValue == FormatTime(hours, minutes)
    ensures DaySelect(p, Some(date)).next
      == Picker(Some(At(date.year, date.month, date.day, hours, minutes)), p.timeValue)
  {
    ParseFormatTime(hours, minutes);
  }

  /**
   * Day selection has no `NaN` guard: a non-empty buffered time that does not parse
   * turns the picked day into an invalid date.
   */
  lemma DaySelectMalformedTime(p: Picker, date: Timestamp)
    requires p.timeValue != ""
    requires !IsNumeric(ParseTime(p.timeValue))
    ensures DaySelect(p, Some(date)).next.selected == Some(Invalid)
  {
  }

  /** For instance, an hour typed without minutes, `"10"`, yields an invalid date. */
  lemma HourOnlyTimeGivesInvalid(date: Timestamp)
    ensures DaySelect(Picker(None, "10"), Some(date)).next.selected == Some(Invalid)
  {
    NoColonNoMinutes("10");
  }

  /**
   * The day selected depends only on the picked date and the time text, never on
   * what was selected before.
   */
  lemma DaySelectDeterministic(p: Picker, q: Picker, date: Option<Timestamp>)
    requires p.timeValue == q.timeValue
    ensures DaySelect(p, date) == DaySelect(q, date)
  {
  }

  /** Every day selection hands its result, when present, to the owner. */
  lemma DaySelectEmits(p: Picker, date: Option<Timestamp>)
    ensures Emitted(DaySelect(p, date)) == DaySelect(p, date).next.selected
    ensures date.Some? ==> Emitted(DaySelect(p, date)).Some?
  {
  }

  /**
   * Typing a time before any day is picked emits nothing; picking a day afterwards
   * applies the typed time at once and emits the result.
   */
  lemma BufferedTimeThenDay(defaultTime: Option<string>, date: Timestamp, hours: nat, minutes: nat)
    requires date.At?
    requires hours < 24 && minutes < 60
    ensures var first := TimeChange(Initial(defaultTime), FormatTime(hours, minutes));
      var second := DaySelect(first.next, Some(date));
      && Emitted(first) == None
      && Emitted(second) == Some(At(date.year, date.month, date.day, hours, minutes))
  {
    var first := TimeChange(Initial(defaultTime), FormatTime(hours, minutes));
    DaySelectAppliesTime(first.next, date, hours, minutes);
  }

  // ---------------------------------------------------------------- calendar

  /** A valid day is selectable exactly when it is after `now` and not before 1900-01-01. */
  lemma SelectableIff(date: Timestamp, now: Timestamp)
    requires date.At? && now.At?
    ensures !Disabled(date, now) <==> Before(now, date) && !Before(date, Earliest)
  {
    AtOrBeforeIffNotAfter(date, now);
  }

  /** When `now` is not before 1900-01-01, only "strictly after now" matters. */
  lemma SelectableAfterNow(date: Timestamp, now: Timestamp)
    requires date.At? && now.At?
    requires !Before(now, Earliest)
    ensures !Disabled(date, now) <==> Before(now, date)
  {
    SelectableIff(date, now);
    if Before(now, date) && Before(date, Earliest) {
      BeforeTransitive(now, date, Earliest);
    }
  }

  // ---------------------------------------------------------------- the component

  /** The component's state cells, updated in place by its event handlers. */
  class DatetimePicker {
    var selected: Option<Timestamp>
    var timeValue: string

    /** The current value of both cells. */
    function State(): Picker
      reads this
    {
      Picker(selected, timeValue)
    }

    /** Mounting: `useState<Date>()` and `useState(defaultTime)`, with `defaultTime = '15:00'`. */
    constructor (defaultTime: Option<string>)
      ensures State() == Initial(defaultTime)
    {
      selected := None;
      timeValue := if defaultTime.Some? then defaultTime.value else DefaultTime;
    }

    /** Runs the effect after a re-render: the selection, if any, goes to `setDatetime`. */
    method RunEffect() returns (emitted: Option<Timestamp>)
      ensures emitted.Some? <==> selected.Some?
      ensures emitted.Some? ==> emitted.value == selected.value
    {
      if selected.None? {
        return None;
      }
      emitted := Some(selected.value);
    }

    /** `handleTimeChange`; returns what the following effect passes to `setDatetime`. */
    method HandleTimeChange(time: string) returns (emitted: Option<Timestamp>)
      modifies this
      ensures State() == TimeChange(old(State()), time).next
      ensures emitted == Emitted(TimeChange(old(State()), time))
    {
      if selected.None? {
        timeValue := time;
        emitted := RunEffect();
        return;
      }
      var hm := ParseTime(time);
      if hm.0.NaN? || (hm.1.Some? && hm.1.value.NaN?) {
        return None;
      }
      selected := Some(NewDate(selected.value, hm.0, ToNumber(hm.1)));
      timeValue := time;
      emitted := RunEffect();
    }

    /** `handleDaySelect`; returns what the following effect passes to `setDatetime`. */
    method HandleDaySelect(date: Option<Timestamp>) returns (emitted: Option<Timestamp>)
      modifies this
      ensures State() == DaySelect(old(State()), date).next
      ensures emitted == Emitted(DaySelect(old(State()), date))
    {
      if timeValue == "" || date.None? {
        selected := date;
        emitted := RunEffect();
        return;
      }
      var hm := ParseTime(timeValue);
      selected := Some(NewDate(date.value, hm.0, ToNumber(hm.1)));
      emitted := RunEffect();
    }
  }
}
