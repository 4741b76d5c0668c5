/**
 * `MealPlanEditActivity`: the dialog that moves a meal plan to another day of
 * the week or extends it to an end date. Two spinners list the week's days;
 * the second has a leading "None (single day)" entry. Saving checks the
 * configuration and the order of the two dates, then sends the update.
 */
module MealPlanEdit {
  import opened Wrappers
  import opened Text
  import opened Dates
  import opened Week
  import opened Prefs
  import MealPlanUtils

  /** The first entry of the extend spinner. */
  const NoEndDateLabel := "None (single day)"

  /** The intent extras the dialog is opened with; each may be missing. */
  datatype EditExtras = EditExtras(
    mealPlanId: Option<int>,
    mealName: Option<string>,
    fromDate: Option<string>,
    toDate: Option<string>,
    appWidgetId: Option<int>)

  /** `MealPlanUpdate`: the body of the update request. */
  datatype MealPlanUpdate = MealPlanUpdate(fromDate: string, toDate: Option<string>)

  /** `updateMealPlan(authorization, id, updates)` against the configured server. */
  datatype UpdateRequest = UpdateRequest(baseUrl: string, authorization: string, mealPlanId: int, updates: MealPlanUpdate)

  /** How a press of Save ends: refused for a missing configuration, refused for dates out of order, or sent. */
  datatype SaveOutcome =
    | MissingConfiguration
    | EndBeforeStart
    | Sent(request: UpdateRequest)

  /** `List.indexOf`: the first position of `x`, or -1 when it is absent. */
  function IndexOf(xs: seq<string>, x: string): (i: int)
    ensures -1 <= i < |xs|
    ensures i == -1 <==> x !in xs
    ensures i >= 0 ==> xs[i] == x && forall j :: 0 <= j < i ==> xs[j] != x
  {
    if xs == [] then -1
    else if xs[0] == x then 0
    else
      var k := IndexOf(xs[1..], x);
      if k < 0 then -1 else k + 1
  }

  /** The move spinner's position after `onCreate`: the current start date's, or the first day. */
  function PresetMove(dates: seq<string>, fromDate: string): nat {
    var i := IndexOf(dates, fromDate);
    if i >= 0 then i else 0
  }

  /** The extend spinner's position after `onCreate`: one past the end date's day, or "None". */
  function PresetExtend(dates: seq<string>, toDate: Option<string>): nat {
    if toDate.Some? && IndexOf(dates, toDate.value) >= 0 then IndexOf(dates, toDate.value) + 1 else 0
  }

  /** The end date extend-spinner position `k` stands for: none at 0, day `k - 1` after it. */
  function ToDateAt(dates: seq<string>, k: nat): (to: Option<string>)
    requires k <= |dates|
    ensures to.None? <==> k == 0
  {
    if k > 0 then Some(dates[k - 1]) else None
  }

  /**
   * The preset positions map back to the dates the dialog was opened with:
   * a start date in the week is preselected, and so is an end date in the
   * week; an end date outside it (or none) preselects "None".
   */
  lemma PresetRoundTrip(dates: seq<string>, fromDate: string, toDate: Option<string>)
    ensures PresetMove(dates, fromDate) < |dates| || dates == []
    ensures PresetExtend(dates, toDate) <= |dates|
    ensures fromDate in dates ==> dates[PresetMove(dates, fromDate)] == fromDate
    ensures toDate.Some? && toDate.value in dates ==> ToDateAt(dates, PresetExtend(dates, toDate)) == toDate
    ensures toDate.None? || toDate.value !in dates ==> ToDateAt(dates, PresetExtend(dates, toDate)) == None
  {
  }

  /** On the week, every extend position is the preset of the end date it stands for. */
  lemma ExtendPositionRoundTrip(today: Date, k: nat)
    requires InRange(today) && k <= 7
    ensures PresetExtend(WeekDates(today), ToDateAt(WeekDates(today), k)) == k
  {
    var dates := WeekDates(today);
    if k > 0 {
      var i := IndexOf(dates, dates[k - 1]);
      assert dates[k - 1] in dates;
      WeekDatesOrdered(today, i, k - 1);
    }
  }

  /**
   * On the week the date comparison of the save guard is a comparison of
   * positions: an end date sorts before the start date exactly when its day
   * comes earlier.
   */
  lemma GuardComparesPositions(today: Date, move: nat, extend: nat)
    requires InRange(today) && move < 7 && 0 < extend <= 7
    ensures LexLess(WeekDates(today)[extend - 1], WeekDates(today)[move]) <==> extend - 1 < move
  {
    WeekDatesOrdered(today, extend - 1, move);
  }

  class MealPlanEditor {
    var mealPlanId: int
    var mealName: string
    var currentFromDate: string
    var currentToDate: Option<string>
    var appWidgetId: int
    /** The week's dates, and the entries and positions of the two spinners. */
    var dates: seq<string>
    var moveLabels: seq<string>
    var extendLabels: seq<string>
    var moveSelection: nat
    var extendSelection: nat
    /** `sdf.parse` and `displayFormat.format`. */
    const parse: string -> Option<Date>
    const displayFormat: Date -> string

    /** After `onCreate`: seven days, and each spinner positioned on one of its entries. */
    ghost predicate Valid()
      reads this
    {
      && |dates| == 7 && |moveLabels| == 7 && |extendLabels| == 8
      && moveSelection < 7 && extendSelection <= 7
    }

    /** The field initialisers. */
    constructor (parse: string -> Option<Date>, displayFormat: Date -> string)
      ensures mealPlanId == -1 && currentFromDate == "" && currentToDate == None
      ensures appWidgetId == InvalidAppWidgetId && dates == []
      ensures this.parse == parse && this.displayFormat == displayFormat
    {
      mealPlanId := -1;
      mealName := "";
      currentFromDate := "";
      currentToDate := None;
      appWidgetId := InvalidAppWidgetId;
      dates := [];
      moveLabels := [];
      extendLabels := [];
      moveSelection := 0;
      extendSelection := 0;
      this.parse := parse;
      this.displayFormat := displayFormat;
    }

    /** The dialog's own `formatDateForDisplay`: the display form, or the input when parsing fails. */
    function FormatDateForDisplay(dateString: string): (shown: string)
      ensures parse(dateString).None? ==> shown == dateString
      ensures parse(dateString).Some? ==> shown == displayFormat(parse(dateString).value)
    {
      MealPlanUtils.FormatDateForDisplay(dateString, parse, displayFormat)
    }

    /** The spinner entries for `days`. */
    function Labels(days: seq<string>): (labels: seq<string>)
      ensures |labels| == |days|
      ensures forall i :: 0 <= i < |days| ==> labels[i] == FormatDateForDisplay(days[i])
    {
      seq(|days|, i requires 0 <= i < |days| => FormatDateForDisplay(days[i]))
    }

    /** `generateWeekDates`: Saturday to Friday of the current week. */
    method GenerateWeekDates(today: Date) returns (week: seq<string>)
      requires InRange(today)
      ensures week == WeekDates(today)
    {
      week := ComputeWeekDates(today);
    }

    /** The start of `onCreate`: each extra, or its default when it is missing. */
    method ReadExtras(extras: EditExtras)
      modifies this`mealPlanId, this`mealName, this`currentFromDate, this`currentToDate, this`appWidgetId
      ensures mealPlanId == extras.mealPlanId.GetOr(-1) && mealName == extras.mealName.GetOr("")
      ensures currentFromDate == extras.fromDate.GetOr("") && currentToDate == extras.toDate
      ensures appWidgetId == extras.appWidgetId.GetOr(InvalidAppWidgetId)
    {
      mealPlanId := extras.mealPlanId.GetOr(-1);
      mealName := extras.mealName.GetOr("");
      currentFromDate := extras.fromDate.GetOr("");
      currentToDate := extras.toDate;
      appWidgetId := extras.appWidgetId.GetOr(InvalidAppWidgetId);
    }

    /**
     * The rest of `onCreate`: the week's dates, both spinners, and the plan's
     * current dates preselected when they are in the week.
     */
    method SetUpSpinners(today: Date)
      requires InRange(today)
      modifies this`dates, this`moveLabels, this`extendLabels, this`moveSelection, this`extendSelection
      ensures Valid()
      ensures dates == WeekDates(today)
      ensures moveLabels == Labels(dates) && extendLabels == [NoEndDateLabel] + Labels(dates)
      ensures moveSelection == PresetMove(dates, currentFromDate)
      ensures extendSelection == PresetExtend(dates, currentToDate)
    {
      dates := GenerateWeekDates(today);
      moveLabels := Labels(dates);
      moveSelection := 0;
      var currentIndex := IndexOf(dates, currentFromDate);
      if currentIndex >= 0 {
        moveSelection := currentIndex;
      }

      extendLabels := [NoEndDateLabel] + moveLabels;
      extendSelection := 0;
      if currentToDate.Some? {
        var toDateIndex := IndexOf(dates, currentToDate.value);
        if toDateIndex >= 0 {
          extendSelection := toDateIndex + 1;
        }
      }
    }

    /** `onCreate`: read the extras, then build the week and both spinners. */
    method OnCreate(extras: EditExtras, today: Date)
      requires InRange(today)
      modifies this
      ensures Valid()
      ensures mealPlanId == extras.mealPlanId.GetOr(-1) && mealName == extras.mealName.GetOr("")
      ensures currentFromDate == extras.fromDate.GetOr("") && currentToDate == extras.toDate
      ensures appWidgetId == extras.appWidgetId.GetOr(InvalidAppWidgetId)
      ensures dates == WeekDates(today)
      ensures moveLabels == Labels(dates) && extendLabels == [NoEndDateLabel] + Labels(dates)
      ensures moveSelection == PresetMove(dates, currentFromDate)
      ensures extendSelection == PresetExtend(dates, currentToDate)
    {
      ReadExtras(extras);
      SetUpSpinners(today);
    }

    /** The user picks an entry in each spinner. */
    method Select(move: nat, extend: nat)
      requires Valid() && move < 7 && extend <= 7
      modifies this`moveSelection, this`extendSelection
      ensures Valid() && moveSelection == move && extendSelection == extend
    {
      moveSelection := move;
      extendSelection := extend;
    }

    /**
     * `saveMealPlanChanges`: refused without a URL and a token, refused when
     * the end date sorts before the start date, and otherwise the update of
     * this plan to exactly the selected dates.
     */
    method SaveMealPlanChanges(prefs: Preferences) returns (outcome: SaveOutcome)
      requires Valid()
      ensures
        var url := prefs.GetString(UrlKey(appWidgetId), "");
        var apiKey := prefs.GetString(ApiKeyKey(appWidgetId), "");
        var newFrom := dates[moveSelection];
        var newTo := ToDateAt(dates, extendSelection);
        && (outcome == MissingConfiguration <==> IsBlank(url) || IsBlank(apiKey))
        && (outcome == EndBeforeStart <==> !IsBlank(url) && !IsBlank(apiKey) && newTo.Some? && LexLess(newTo.value, newFrom))
        && (outcome.Sent? ==>
              outcome.request == UpdateRequest(url, "Bearer " + apiKey, mealPlanId, MealPlanUpdate(newFrom, newTo)))
    {
      var apiKey := prefs.GetString(ApiKeyKey(appWidgetId), "");
      var tandoorUrl := prefs.GetString(UrlKey(appWidgetId), "");
      if IsBlank(tandoorUrl) || IsBlank(apiKey) {
        return MissingConfiguration;
      }
      var newFromDate := dates[moveSelection];
      var newToDate := if extendSelection > 0 then Some(dates[extendSelection - 1]) else None;
      if newToDate.Some? && LexLess(newToDate.value, newFromDate) {
        return EndBeforeStart;
      }
      var updates := MealPlanUpdate(newFromDate, newToDate);
      outcome := Sent(UpdateRequest(tandoorUrl, "Bearer " + apiKey, mealPlanId, updates));
    }

    /**
     * The dialog opened on a plan of this week and saved without touching the
     * spinners: it is refused for dates out of order exactly when the plan's
     * own end date sorts before its start, and otherwise sends the plan's own
     * dates back.
     */
    method SaveUntouched(extras: EditExtras, today: Date, prefs: Preferences) returns (outcome: SaveOutcome)
      requires InRange(today)
      modifies this
      ensures
        var from := extras.fromDate.GetOr("");
        var to := extras.toDate;
        var id := extras.appWidgetId.GetOr(InvalidAppWidgetId);
        var configured := !IsBlank(prefs.GetString(UrlKey(id), "")) && !IsBlank(prefs.GetString(ApiKeyKey(id), ""));
        from in WeekDates(today) && (to.None? || to.value in WeekDates(today)) ==>
          && (outcome == EndBeforeStart <==> configured && to.Some? && LexLess(to.value, from))
          && (outcome.Sent? ==> outcome.request.updates == MealPlanUpdate(from, to))
    {
      OnCreate(extras, today);
      outcome := SaveMealPlanChanges(prefs);
      if currentFromDate in WeekDates(today) && (currentToDate.None? || currentToDate.value in WeekDates(today)) {
        UntouchedSaveKeepsDates(today, currentFromDate, currentToDate);
      }
    }
  }

  /**
   * Opened on a plan of this week and saved without touching the spinners,
   * the dialog sends the plan's own dates back (or refuses an end date that
   * lies before the start).
   */
  lemma UntouchedSaveKeepsDates(today: Date, fromDate: string, toDate: Option<string>)
    requires InRange(today) && fromDate in WeekDates(today)
    requires toDate.None? || toDate.value in WeekDates(today)
    ensures WeekDates(today)[PresetMove(WeekDates(today), fromDate)] == fromDate
    ensures ToDateAt(WeekDates(today), PresetExtend(WeekDates(today), toDate)) == toDate
  {
    PresetRoundTrip(WeekDates(today), fromDate, toDate);
  }
}
