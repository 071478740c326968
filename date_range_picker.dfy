/** The controlled date-range picker of src/lib/date-range-picker.tsx.

    The caller owns `value` and hears about commits through `onChange`; the
    picker keeps its own `isOpen` flag and a draft range (`tempRange`) that
    edits go to until Apply. Locale formatting and the clock are not modelled:
    the formatter is a function parameter, and the ISO dates of the quick
    presets are strings passed in. */
module DateRangePicker {

  datatype DateRange = DateRange(startDate: string, endDate: string)

  /** `formatDate`: the empty string stays empty, anything else goes through
      the locale formatter. */
  function FormatDate(locale: string -> string, date: string): (r: string)
    ensures date == "" ==> r == ""
    ensures date != "" ==> r == locale(date)
  {
    if date == "" then "" else locale(date)
  }

  /** `getDisplayText`: the trigger's label, a function of the committed
      `value` alone. */
  function DisplayText(locale: string -> string, value: DateRange): (r: string)
    ensures value.startDate != "" && value.endDate != "" ==>
      r == locale(value.startDate) + " - " + locale(value.endDate)
    ensures value.startDate != "" && value.endDate == "" ==>
      r == locale(value.startDate) + " - Select end date"
    ensures value.startDate == "" ==> r == "Select date range"
  {
    if value.startDate != "" && value.endDate != "" then
      FormatDate(locale, value.startDate) + " - " + FormatDate(locale, value.endDate)
    else if value.startDate != "" then
      FormatDate(locale, value.startDate) + " - Select end date"
    else
      "Select date range"
  }

  /** An end date without a start date still shows the placeholder. */
  lemma EndOnlyShowsPlaceholder(locale: string -> string, end: string)
    ensures DisplayText(locale, DateRange("", end)) == "Select date range"
  {
  }

  /** One quick-range button: its caption and the range it puts in the draft. */
  datatype QuickRange = QuickRange(title: string, range: DateRange)

  /** `getQuickRanges`, given today's ISO date and the ISO dates one day,
      seven days, one month and one year earlier. */
  function QuickRanges(today: string, yesterday: string, weekAgo: string, monthAgo: string, yearAgo: string)
    : (r: seq<QuickRange>)
    ensures |r| == 5
    ensures r[0] == QuickRange("Today", DateRange(today, today))
    ensures r[1] == QuickRange("Yesterday", DateRange(yesterday, yesterday))
    ensures forall i :: 2 <= i < 5 ==> r[i].range.endDate == today
    ensures r[2].range.startDate == weekAgo && r[3].range.startDate == monthAgo && r[4].range.startDate == yearAgo
    ensures r[2].title == "Last 7 days" && r[3].title == "Last 30 days" && r[4].title == "Last year"
  {
    [ QuickRange("Today", DateRange(today, today)),
      QuickRange("Yesterday", DateRange(yesterday, yesterday)),
      QuickRange("Last 7 days", DateRange(weekAgo, today)),
      QuickRange("Last 30 days", DateRange(monthAgo, today)),
      QuickRange("Last year", DateRange(yearAgo, today)) ]
  }

  /** One mounted `DateRangePicker`. `value` is the prop as last rendered by
      the parent; `commits` records every `onChange` call, oldest first. */
  class Picker {
    var value: DateRange
    var isOpen: bool
    var tempRange: DateRange
    var commits: seq<DateRange>

    /** Mounting seeds the draft from `value`, closed, with no commits. */
    constructor (value: DateRange)
      ensures this.value == value && tempRange == value
      ensures !isOpen && commits == []
    {
      this.value := value;
      isOpen := false;
      tempRange := value;
      commits := [];
    }

    /** The trigger's label. */
    function Label(locale: string -> string): string
      reads this
    {
      DisplayText(locale, value)
    }

    /** The parent re-renders with a new `value`; the draft keeps what it had,
      since it was seeded only at mount. */
    method ReceiveValue(v: DateRange)
      modifies this
      ensures value == v
      ensures isOpen == old(isOpen) && tempRange == old(tempRange) && commits == old(commits)
    {
      value := v;
    }

    /** The trigger button flips `isOpen` and leaves the draft alone. */
    method ToggleOpen()
      modifies this
      ensures isOpen == !old(isOpen)
      ensures value == old(value) && tempRange == old(tempRange) && commits == old(commits)
    {
      isOpen := !isOpen;
    }

    /** Apply: one `onChange` call with the draft, then close. */
    method Apply() returns (committed: DateRange)
      modifies this
      ensures committed == old(tempRange)
      ensures commits == old(commits) + [old(tempRange)]
      ensures !isOpen
      ensures value == old(value) && tempRange == old(tempRange)
    {
      committed := tempRange;
      commits := commits + [tempRange];
      isOpen := false;
    }

    /** Cancel: the draft goes back to `value` and the popover closes; no
      `onChange` call. */
    method Cancel()
      modifies this
      ensures tempRange == value && !isOpen
      ensures value == old(value) && commits == old(commits)
    {
      tempRange := value;
      isOpen := false;
    }

    /** A quick-range button replaces both draft dates at once. */
    method ChooseQuickRange(q: QuickRange)
      modifies this
      ensures tempRange == q.range
      ensures value == old(value) && isOpen == old(isOpen) && commits == old(commits)
    {
      tempRange := q.range;
    }

    /** Editing the start field changes only the draft's start date. */
    method EditStart(date: string)
      modifies this
      ensures tempRange == old(tempRange).(startDate := date)
      ensures value == old(value) && isOpen == old(isOpen) && commits == old(commits)
    {
      tempRange := tempRange.(startDate := date);
    }

    /** Editing the end field changes only the draft's end date; the start
      date is only a `min` hint to the input and is not enforced. */
    method EditEnd(date: string)
      modifies this
      ensures tempRange == old(tempRange).(endDate := date)
      ensures value == old(value) && isOpen == old(isOpen) && commits == old(commits)
    {
      tempRange := tempRange.(endDate := date);
    }
  }

  /** Open, pick "Today", Apply: `onChange` is called exactly once, with
      today's date at both ends. */
  method TodayThenApply(initial: DateRange, today: string, yesterday: string, weekAgo: string,
                        monthAgo: string, yearAgo: string)
    returns (commits: seq<DateRange>, open: bool)
    ensures commits == [DateRange(today, today)]
    ensures !open
  {
    var picker := new Picker(initial);
    picker.ToggleOpen();
    var presets := QuickRanges(today, yesterday, weekAgo, monthAgo, yearAgo);
    picker.ChooseQuickRange(presets[0]);
    var committed := picker.Apply();
    commits := picker.commits;
    open := picker.isOpen;
  }

  /** Edit the draft, Cancel: no `onChange` call, the label is unchanged and
      the draft is back to `value`. */
  method EditThenCancel(locale: string -> string, initial: DateRange, start: string, end: string)
    returns (commits: seq<DateRange>, shownText: string, draft: DateRange)
    ensures commits == []
    ensures shownText == DisplayText(locale, initial)
    ensures draft == initial
  {
    var picker := new Picker(initial);
    picker.ToggleOpen();
    picker.EditStart(start);
    picker.EditEnd(end);
    picker.Cancel();
    commits := picker.commits;
    shownText := picker.Label(locale);
    draft := picker.tempRange;
  }

  /** A new `value` from the parent is not copied into the draft: applying
      right after commits the old draft, not the new value. */
  method StaleDraftAfterNewValue(initial: DateRange, incoming: DateRange)
    returns (committed: DateRange)
    ensures committed == initial
  {
    var picker := new Picker(initial);
    picker.ReceiveValue(incoming);
    picker.ToggleOpen();
    committed := picker.Apply();
  }

  /** The end may precede the start: edits are stored as typed. */
  method OutOfOrderRangeAccepted(initial: DateRange)
    returns (committed: DateRange)
    ensures committed == DateRange("2024-12-31", "2024-01-01")
  {
    var picker := new Picker(initial);
    picker.ToggleOpen();
    picker.EditStart("2024-12-31");
    picker.EditEnd("2024-01-01");
    committed := picker.Apply();
  }
}
