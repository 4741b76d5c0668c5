/**
 * The records the widget receives from the Tandoor server, with the fields the
 * code reads (a recipe may be absent for a placeholder entry, and a plan may
 * carry an end date).
 */
module Models {
  import opened Wrappers

  datatype Recipe = Recipe(id: int, name: string)

  datatype MealPlan = MealPlan(
    id: int,
    title: string,
    recipe: Option<Recipe>,
    fromDate: string,
    toDate: Option<string>,
    mealTypeName: string)
}

/**
 * `MealPlanUtils`: total helpers that never throw. The `yyyy-MM-dd` parser and
 * the display formatter are `SimpleDateFormat` objects handed in by the caller;
 * here they are function parameters (`None` stands for a parse that threw or
 * gave null).
 */
module MealPlanUtils {
  import opened Wrappers
  import opened Text
  import opened Dates
  import opened Models

  /** `getDisplayName`: the recipe's name for a real entry, the plan's title for a placeholder. */
  function GetDisplayName(recipe: Option<Recipe>, title: string): (name: string)
    ensures recipe.Some? ==> name == recipe.value.name
    ensures recipe.None? ==> name == title
  {
    match recipe
    case Some(r) => r.name
    case None => title
  }

  /** The cases pinned by the unit tests the code satisfies, and the ones it does not. */
  lemma DisplayNameExamples()
    ensures GetDisplayName(Some(Recipe(1, "Test Recipe")), "Placeholder Title") == "Test Recipe"
    ensures GetDisplayName(None, "Placeholder Title") == "Placeholder Title"
    ensures GetDisplayName(None, "") == "" != "Untitled"
    ensures GetDisplayName(Some(Recipe(1, "")), "Placeholder Title") == "" != "Placeholder Title"
  {
  }

  /** `getRecipeUrl`: the recipe id, present exactly for a recipe with a positive id. */
  function GetRecipeUrl(recipe: Option<Recipe>): (id: Option<int>)
    ensures id.Some? <==> recipe.Some? && recipe.value.id > 0
    ensures id.Some? ==> id.value == recipe.value.id
  {
    if recipe.Some? && recipe.value.id > 0 then Some(recipe.value.id) else None
  }

  /** The first ten characters of a timestamp, or the whole string when it is shorter. */
  function SafeParseDate(raw: string): (date: string)
    ensures date <= raw
    ensures |raw| >= 10 ==> |date| == 10
    ensures |raw| < 10 ==> date == raw
  {
    if |raw| >= 10 then raw[..10] else raw
  }

  /** Cutting a cut string again changes nothing. */
  lemma SafeParseDateIdempotent(raw: string)
    ensures SafeParseDate(SafeParseDate(raw)) == SafeParseDate(raw)
  {
  }

  /** A rendered `yyyy-MM-dd` date is its own date part. */
  lemma SafeParseDateOfFormatted(d: Date)
    requires Valid(d) && d.year <= MaxYear
    ensures SafeParseDate(Format(d)) == Format(d)
  {
  }

  /** The unit-test examples: no check that the ten characters form a date. */
  lemma SafeParseDateExamples()
    ensures SafeParseDate("2023-12-25T14:30:00Z") == "2023-12-25"
    ensures SafeParseDate("2023-12-25") == "2023-12-25"
    ensures SafeParseDate("2023") == "2023"
    ensures SafeParseDate("9999-99-99T00:00:00Z") == "9999-99-99"
  {
    assert "2023-12-25T14:30:00Z"[..10] == "2023-12-25";
    assert "9999-99-99T00:00:00Z"[..10] == "9999-99-99";
  }

  /**
   * `formatDateForDisplay`: the parsed date in the display format, or the
   * input unchanged when parsing fails.
   */
  function FormatDateForDisplay(dateString: string, parse: string -> Option<Date>, render: Date -> string): (shown: string)
    ensures parse(dateString).Some? ==> shown == render(parse(dateString).value)
    ensures parse(dateString).None? ==> shown == dateString
  {
    match parse(dateString)
    case Some(d) => render(d)
    case None => dateString
  }

  /**
   * The span a multi-day plan covers, from its start date to its end date (its
   * start date alone when it has none), compared as `yyyy-MM-dd` strings. The
   * body of `mealAppliesToDate` is not part of this model; this is one rule
   * that meets every assertion its unit test makes.
   */
  predicate SpansDate(meal: MealPlan, date: string) {
    var first := SafeParseDate(meal.fromDate);
    var last := if meal.toDate.Some? then SafeParseDate(meal.toDate.value) else first;
    !LexLess(date, first) && !LexLess(last, date)
  }

  /** The plan of the multi-day unit test: from 2025-12-01 to 2025-12-05. */
  function Trip(): MealPlan {
    MealPlan(1, "Test Meal", None, "2025-12-01", Some("2025-12-05"), "Trip")
  }

  /** What the multi-day unit test asserts of `mealAppliesToDate` for that plan. */
  predicate MeetsMultiDayTest(applies: (MealPlan, string) -> bool) {
    && applies(Trip(), "2025-12-01") && applies(Trip(), "2025-12-03") && applies(Trip(), "2025-12-05")
    && !applies(Trip(), "2025-11-30") && !applies(Trip(), "2025-12-06")
  }

  /** The span rule passes that test. */
  lemma SpansDateMeetsMultiDayTest()
    ensures MeetsMultiDayTest(SpansDate)
  {
    TripSpansItsFirstDay();
    TripSpansItsMiddleDay();
    TripSpansItsLastDay();
    TripMissesTheDayBefore();
    TripMissesTheDayAfter();
  }

  lemma TripBounds()
    ensures SafeParseDate(Trip().fromDate) == "2025-12-01"
    ensures SafeParseDate(Trip().toDate.value) == "2025-12-05"
  {
  }

  lemma TripSpansItsFirstDay()
    ensures SpansDate(Trip(), "2025-12-01")
  {
    TripBounds();
    LexLessIrreflexive("2025-12-01");
    LexLessAt("2025-12-01", "2025-12-05", 9);
    LexLessAsymmetric("2025-12-01", "2025-12-05");
  }

  lemma TripSpansItsMiddleDay()
    ensures SpansDate(Trip(), "2025-12-03")
  {
    TripBounds();
    LexLessAt("2025-12-01", "2025-12-03", 9);
    LexLessAsymmetric("2025-12-01", "2025-12-03");
    LexLessAt("2025-12-03", "2025-12-05", 9);
    LexLessAsymmetric("2025-12-03", "2025-12-05");
  }

  lemma TripSpansItsLastDay()
    ensures SpansDate(Trip(), "2025-12-05")
  {
    TripBounds();
    LexLessIrreflexive("2025-12-05");
    LexLessAt("2025-12-01", "2025-12-05", 9);
    LexLessAsymmetric("2025-12-01", "2025-12-05");
  }

  lemma TripMissesTheDayBefore()
    ensures !SpansDate(Trip(), "2025-11-30")
  {
    TripBounds();
    LexLessAt("2025-11-30", "2025-12-01", 6);
  }

  lemma TripMissesTheDayAfter()
    ensures !SpansDate(Trip(), "2025-12-06")
  {
    TripBounds();
    LexLessAt("2025-12-05", "2025-12-06", 9);
  }
}
