/**
 * `TandoorWidgetRemoteViewsFactory`: the list behind the widget. It keeps the
 * week's days with their meal plans (`dailyMeals`) and one display row per day
 * (`flattenedMeals`), rebuilds both on every refresh, and turns a row into the
 * texts of its recipe cards.
 */
module WidgetService {
  import opened Wrappers
  import opened Text
  import opened Dates
  import opened Week
  import opened Models
  import opened MealPlanUtils
  import opened Prefs

  /** `MAX_RECIPE_NAME_LENGTH`. */
  const MaxRecipeNameLength := 15
  /** The row layout has five recipe cards. */
  const MaxCards := 5

  /** One entry of `dailyMeals`: a `yyyy-MM-dd` date and the plans shown on it. */
  datatype DayMeals = DayMeals(date: string, meals: seq<MealPlan>)

  /** `GroupedMeal`: one display row. */
  datatype GroupedMeal = GroupedMeal(date: string, dayDisplay: string, mealTypeName: Option<string>, meals: seq<MealPlan>)

  /** `GET api/meal-plan/?from_date=…&to_date=…` against the configured server. */
  datatype Request = Request(baseUrl: string, authorization: string, fromDate: string, toDate: string)

  /**
   * How the request ended: a successful response whose body may be absent, an
   * unsuccessful HTTP status, or an exception thrown on the way.
   */
  datatype FetchOutcome =
    | Success(results: Option<seq<MealPlan>>)
    | HttpError(code: int, errorBody: Option<string>)
    | Threw

  /** What one recipe card shows, and the extras its click opens the edit dialog with. */
  datatype Card = Card(text: string, mealPlanId: int, mealName: string, fromDate: string, toDate: Option<string>)

  /** A rendered row: the day heading and up to five cards. */
  datatype RowView = RowView(dayDisplay: string, cards: seq<Card>)

  // ---------------------------------------------------------------------------
  // Sorting the meals of a day

  /** The `sortedBy` key: 0 for lunch, 1 for dinner, 2 for any other meal type, ignoring case. */
  function Priority(meal: MealPlan): (p: nat)
    ensures p <= 2
    ensures p == 0 <==> Lowercase(meal.mealTypeName) == "lunch"
    ensures p == 1 <==> Lowercase(meal.mealTypeName) == "dinner"
  {
    LowercaseIsLowercase(meal.mealTypeName, "lunch");
    LowercaseIsLowercase(meal.mealTypeName, "dinner");
    if LowercaseIs(meal.mealTypeName, "lunch") then 0
    else if LowercaseIs(meal.mealTypeName, "dinner") then 1
    else 2
  }

  /** A sort key with the three values 0, 1 and 2. */
  ghost predicate ThreeValued(key: MealPlan -> nat) {
    forall x :: key(x) <= 2
  }

  /** The meals whose key is `k`, in their original order. */
  function WithKey(meals: seq<MealPlan>, key: MealPlan -> nat, k: nat): (r: seq<MealPlan>)
    ensures |r| <= |meals|
  {
    if meals == [] then []
    else (if key(meals[0]) == k then [meals[0]] else []) + WithKey(meals[1..], key, k)
  }

  /** Everything kept has the key asked for. */
  lemma {:induction false} WithKeyHasKey(meals: seq<MealPlan>, key: MealPlan -> nat, k: nat)
    ensures forall i :: 0 <= i < |WithKey(meals, key, k)| ==> key(WithKey(meals, key, k)[i]) == k
  {
    if meals != [] {
      WithKeyHasKey(meals[1..], key, k);
    }
  }

  /** `sortedBy(key)` for a three-valued key: the key-0 meals, then key 1, then key 2, each in input order. */
  function SortByKey(meals: seq<MealPlan>, key: MealPlan -> nat): seq<MealPlan> {
    WithKey(meals, key, 0) + WithKey(meals, key, 1) + WithKey(meals, key, 2)
  }

  /** `meals.sortedBy { priority }`. */
  function SortByPriority(meals: seq<MealPlan>): seq<MealPlan> {
    SortByKey(meals, Priority)
  }

  predicate SortedBy(meals: seq<MealPlan>, key: MealPlan -> nat) {
    forall i, j :: 0 <= i < j < |meals| ==> key(meals[i]) <= key(meals[j])
  }

  /** The sorted meals come in key order. */
  lemma SortByKeyOrdered(meals: seq<MealPlan>, key: MealPlan -> nat)
    ensures SortedBy(SortByKey(meals, key), key)
  {
    var a, b, c := WithKey(meals, key, 0), WithKey(meals, key, 1), WithKey(meals, key, 2);
    WithKeyHasKey(meals, key, 0);
    WithKeyHasKey(meals, key, 1);
    WithKeyHasKey(meals, key, 2);
    var r := a + b + c;
    forall i, j | 0 <= i < j < |r|
      ensures key(r[i]) <= key(r[j])
    {
      assert key(r[i]) == if i < |a| then 0 else if i < |a| + |b| then 1 else 2;
      assert key(r[j]) == if j < |a| then 0 else if j < |a| + |b| then 1 else 2;
    }
  }

  /** The three key classes together hold exactly the original meals. */
  lemma {:induction false} ClassesPartition(meals: seq<MealPlan>, key: MealPlan -> nat)
    requires ThreeValued(key)
    ensures multiset(WithKey(meals, key, 0)) + multiset(WithKey(meals, key, 1)) + multiset(WithKey(meals, key, 2))
         == multiset(meals)
  {
    if meals != [] {
      ClassesPartition(meals[1..], key);
      PartitionStep(meals, key);
    }
  }

  /** If the classes of the tail partition it, the classes of the whole partition the whole. */
  lemma PartitionStep(meals: seq<MealPlan>, key: MealPlan -> nat)
    requires ThreeValued(key) && meals != []
    requires multiset(WithKey(meals[1..], key, 0)) + multiset(WithKey(meals[1..], key, 1))
           + multiset(WithKey(meals[1..], key, 2)) == multiset(meals[1..])
    ensures multiset(WithKey(meals, key, 0)) + multiset(WithKey(meals, key, 1)) + multiset(WithKey(meals, key, 2))
         == multiset(meals)
  {
    var x, rest := meals[0], meals[1..];
    assert multiset(meals) == multiset{x} + multiset(rest) by {
      assert meals == [x] + rest;
    }
    WithKeyFirst(meals, key, 0);
    WithKeyFirst(meals, key, 1);
    WithKeyFirst(meals, key, 2);
    Regroup(x, multiset(WithKey(rest, key, 0)), multiset(WithKey(rest, key, 1)), multiset(WithKey(rest, key, 2)), key(x));
  }

  /** Adding `x` to one of three parts adds it to their sum. */
  lemma Regroup<T>(x: T, a: multiset<T>, b: multiset<T>, c: multiset<T>, k: nat)
    requires k <= 2
    ensures (if k == 0 then multiset{x} + a else a) + (if k == 1 then multiset{x} + b else b)
          + (if k == 2 then multiset{x} + c else c) == multiset{x} + (a + b + c)
  {
  }

  /** The first meal joins the class of its key and no other. */
  lemma WithKeyFirst(meals: seq<MealPlan>, key: MealPlan -> nat, k: nat)
    requires meals != []
    ensures multiset(WithKey(meals, key, k))
         == if key(meals[0]) == k then multiset{meals[0]} + multiset(WithKey(meals[1..], key, k))
            else multiset(WithKey(meals[1..], key, k))
  {
    if key(meals[0]) != k {
      assert WithKey(meals, key, k) == [] + WithKey(meals[1..], key, k);
    }
  }

  lemma {:induction false} WithKeyConcat(a: seq<MealPlan>, b: seq<MealPlan>, key: MealPlan -> nat, k: nat)
    ensures WithKey(a + b, key, k) == WithKey(a, key, k) + WithKey(b, key, k)
  {
    if a != [] {
      assert (a + b)[1..] == a[1..] + b;
      WithKeyConcat(a[1..], b, key, k);
    } else {
      assert a + b == b;
    }
  }

  lemma {:induction false} WithKeyOfClass(meals: seq<MealPlan>, key: MealPlan -> nat, j: nat, k: nat)
    requires forall i :: 0 <= i < |meals| ==> key(meals[i]) == j
    ensures WithKey(meals, key, k) == if j == k then meals else []
  {
    if meals != [] {
      WithKeyOfClass(meals[1..], key, j, k);
    }
  }

  lemma {:induction false} WithKeyNone(meals: seq<MealPlan>, key: MealPlan -> nat, k: nat)
    requires forall i :: 0 <= i < |meals| ==> key(meals[i]) != k
    ensures WithKey(meals, key, k) == []
  {
    if meals != [] {
      WithKeyNone(meals[1..], key, k);
    }
  }

  /** Meals with equal keys keep their relative order: the sort is stable. */
  lemma SortByKeyStable(meals: seq<MealPlan>, key: MealPlan -> nat, k: nat)
    requires ThreeValued(key)
    ensures WithKey(SortByKey(meals, key), key, k) == WithKey(meals, key, k)
  {
    var a, b, c := WithKey(meals, key, 0), WithKey(meals, key, 1), WithKey(meals, key, 2);
    WithKeyHasKey(meals, key, 0);
    WithKeyHasKey(meals, key, 1);
    WithKeyHasKey(meals, key, 2);
    WithKeyConcat(a + b, c, key, k);
    WithKeyConcat(a, b, key, k);
    WithKeyOfClass(a, key, 0, k);
    WithKeyOfClass(b, key, 1, k);
    WithKeyOfClass(c, key, 2, k);
    if k > 2 {
      WithKeyNone(meals, key, k);
    }
  }

  /** The tail of a sorted sequence is sorted and nothing in it sorts before the head. */
  lemma SortedTail(r: seq<MealPlan>, key: MealPlan -> nat)
    requires r != [] && SortedBy(r, key)
    ensures SortedBy(r[1..], key)
    ensures forall i :: 0 <= i < |r| - 1 ==> key(r[0]) <= key(r[1..][i])
  {
    var rest := r[1..];
    forall i, j | 0 <= i < j < |rest| ensures key(rest[i]) <= key(rest[j]) {
      assert rest[i] == r[i + 1] && rest[j] == r[j + 1];
    }
    forall i | 0 <= i < |rest| ensures key(r[0]) <= key(rest[i]) {
      assert rest[i] == r[i + 1];
    }
  }

  /** Any arrangement sorted by the key is its key-0 meals, then key 1, then key 2. */
  lemma {:induction false} SortedIsItsClasses(r: seq<MealPlan>, key: MealPlan -> nat)
    requires ThreeValued(key) && SortedBy(r, key)
    ensures r == SortByKey(r, key)
  {
    if r != [] {
      SortedTail(r, key);
      SortedIsItsClasses(r[1..], key);
      HeadJoinsItsClass(r, key);
    }
  }

  /** A head no greater than anything after it joins the front of its own class. */
  lemma HeadJoinsItsClass(r: seq<MealPlan>, key: MealPlan -> nat)
    requires ThreeValued(key) && r != []
    requires forall i :: 0 <= i < |r| - 1 ==> key(r[0]) <= key(r[1..][i])
    requires r[1..] == SortByKey(r[1..], key)
    ensures r == SortByKey(r, key)
  {
    var x, rest := r[0], r[1..];
    var a, b, c := WithKey(rest, key, 0), WithKey(rest, key, 1), WithKey(rest, key, 2);
    var p := key(x);
    if p >= 1 { WithKeyNone(rest, key, 0); }
    if p == 2 { WithKeyNone(rest, key, 1); }
    JoinClass(r, key, a, b, c);
  }

  lemma JoinClass(r: seq<MealPlan>, key: MealPlan -> nat, a: seq<MealPlan>, b: seq<MealPlan>, c: seq<MealPlan>)
    requires r != [] && key(r[0]) <= 2 && r[1..] == a + b + c
    requires a == WithKey(r[1..], key, 0) && b == WithKey(r[1..], key, 1) && c == WithKey(r[1..], key, 2)
    requires key(r[0]) >= 1 ==> a == []
    requires key(r[0]) == 2 ==> b == []
    ensures r == SortByKey(r, key)
  {
    var x := r[0];
    assert r == [x] + (a + b + c);
    var ka := WithKey(r, key, 0);
    var kb := WithKey(r, key, 1);
    var kc := WithKey(r, key, 2);
    assert ka == (if key(x) == 0 then [x] else []) + a;
    assert kb == (if key(x) == 1 then [x] else []) + b;
    assert kc == (if key(x) == 2 then [x] else []) + c;
  }

  /**
   * The day's meals after `sortedBy`: lunch first, then dinner, then the
   * rest; the same meals; meals of one kind in their original order; and no
   * other arrangement has those three properties.
   */
  lemma SortByPriorityIsStableSort(meals: seq<MealPlan>)
    ensures SortedBy(SortByPriority(meals), Priority)
    ensures multiset(SortByPriority(meals)) == multiset(meals)
    ensures forall k :: WithKey(SortByPriority(meals), Priority, k) == WithKey(meals, Priority, k)
  {
    PriorityThreeValued();
    SortByKeyOrdered(meals, Priority);
    ClassesPartition(meals, Priority);
    forall k ensures WithKey(SortByPriority(meals), Priority, k) == WithKey(meals, Priority, k) {
      SortByKeyStable(meals, Priority, k);
    }
  }

  lemma PriorityThreeValued()
    ensures ThreeValued(Priority)
  {
    forall x ensures Priority(x) <= 2 { }
  }

  /** No other arrangement of the day's meals is ordered by priority and keeps each kind's order. */
  lemma SortByPriorityUnique(meals: seq<MealPlan>, r: seq<MealPlan>)
    requires SortedBy(r, Priority)
    requires forall k :: WithKey(r, Priority, k) == WithKey(meals, Priority, k)
    ensures r == SortByPriority(meals)
  {
    PriorityThreeValued();
    SortedIsItsClasses(r, Priority);
    assert WithKey(r, Priority, 0) == WithKey(meals, Priority, 0);
    assert WithKey(r, Priority, 1) == WithKey(meals, Priority, 1);
    assert WithKey(r, Priority, 2) == WithKey(meals, Priority, 2);
  }

  /** The meal types of the sorting unit test. */
  lemma PriorityExamples()
    ensures LowercaseIs("Lunch", "lunch") && LowercaseIs("Dinner", "dinner")
    ensures !LowercaseIs("Snack", "lunch") && !LowercaseIs("Snack", "dinner")
    ensures !LowercaseIs("Breakfast", "lunch") && !LowercaseIs("Breakfast", "dinner")
  {
    assert "Lunch"[1..] == "unch" && "unch"[1..] == "nch" && "nch"[1..] == "ch" && "ch"[1..] == "h";
    assert "lunch"[1..] == "unch" && "Dinner"[1..] == "inner" && "inner"[1..] == "nner";
    assert "nner"[1..] == "ner" && "ner"[1..] == "er" && "er"[1..] == "r";
    assert "dinner"[1..] == "inner" && "h"[1..] == [] && "r"[1..] == [];
    assert "Snack"[0] == 'S' && "Snack"[1..] == "nack" && "nack"[0] == 'n' && "unch"[0] == 'u';
  }

  /** The meals of the sorting unit test: Snack, Dinner, Lunch, Breakfast. */
  function SortingTestMeals(): seq<MealPlan> {
    [MealPlan(1, "Test Meal", None, "2025-12-06", None, "Snack"),
     MealPlan(2, "Test Meal", None, "2025-12-06", None, "Dinner"),
     MealPlan(3, "Test Meal", None, "2025-12-06", None, "Lunch"),
     MealPlan(4, "Test Meal", None, "2025-12-06", None, "Breakfast")]
  }

  /** Each test meal's priority class. */
  lemma SortingTestPriorities()
    ensures var s := SortingTestMeals();
            Priority(s[0]) == 2 && Priority(s[1]) == 1 && Priority(s[2]) == 0 && Priority(s[3]) == 2
  {
    PriorityExamples();
  }

  /** `[x]` when `x` has key `k`, else nothing. */
  function KeyIs(x: MealPlan, key: MealPlan -> nat, k: nat): seq<MealPlan> {
    if key(x) == k then [x] else []
  }

  lemma WithKeyCons(x: MealPlan, rest: seq<MealPlan>, key: MealPlan -> nat, k: nat)
    ensures WithKey([x] + rest, key, k) == KeyIs(x, key, k) + WithKey(rest, key, k)
  {
    assert ([x] + rest)[1..] == rest;
  }

  /** `WithKey` on four meals, meal by meal. */
  lemma WithKeyOfFour(a: MealPlan, b: MealPlan, c: MealPlan, d: MealPlan, key: MealPlan -> nat, k: nat)
    ensures WithKey([a, b, c, d], key, k)
         == KeyIs(a, key, k) + (KeyIs(b, key, k) + (KeyIs(c, key, k) + KeyIs(d, key, k)))
  {
    WithKeyOfThree(b, c, d, key, k);
    assert [a] + [b, c, d] == [a, b, c, d];
    WithKeyCons(a, [b, c, d], key, k);
  }

  lemma WithKeyOfThree(b: MealPlan, c: MealPlan, d: MealPlan, key: MealPlan -> nat, k: nat)
    ensures WithKey([b, c, d], key, k) == KeyIs(b, key, k) + (KeyIs(c, key, k) + KeyIs(d, key, k))
  {
    WithKeyOfTwo(c, d, key, k);
    assert [b] + [c, d] == [b, c, d];
    WithKeyCons(b, [c, d], key, k);
  }

  lemma WithKeyOfTwo(c: MealPlan, d: MealPlan, key: MealPlan -> nat, k: nat)
    ensures WithKey([c, d], key, k) == KeyIs(c, key, k) + KeyIs(d, key, k)
  {
    assert [d] + [] == [d];
    WithKeyCons(d, [], key, k);
    assert [c] + [d] == [c, d];
    WithKeyCons(c, [d], key, k);
  }

  lemma SortingTestClasses()
    ensures var s := SortingTestMeals();
            && WithKey(s, Priority, 0) == [s[2]] && WithKey(s, Priority, 1) == [s[1]]
            && WithKey(s, Priority, 2) == [s[0], s[3]]
  {
    var s := SortingTestMeals();
    SortingTestPriorities();
    assert s == [s[0], s[1], s[2], s[3]];
    WithKeyOfFour(s[0], s[1], s[2], s[3], Priority, 0);
    WithKeyOfFour(s[0], s[1], s[2], s[3], Priority, 1);
    WithKeyOfFour(s[0], s[1], s[2], s[3], Priority, 2);
  }

  /** The unit test's day sorts to Lunch, Dinner, Snack, Breakfast. */
  lemma SortExample()
    ensures var s := SortingTestMeals();
            SortByPriority(s) == [s[2], s[1], s[0], s[3]]
  {
    SortingTestClasses();
    var s := SortingTestMeals();
    SortOfFourClasses(s, Priority);
  }

  /** Four meals whose classes are as in the sorting test sort to classes 0, 1, then 2. */
  lemma SortOfFourClasses(s: seq<MealPlan>, key: MealPlan -> nat)
    requires |s| == 4
    requires WithKey(s, key, 0) == [s[2]] && WithKey(s, key, 1) == [s[1]] && WithKey(s, key, 2) == [s[0], s[3]]
    ensures SortByKey(s, key) == [s[2], s[1], s[0], s[3]]
  {
  }

  // ---------------------------------------------------------------------------
  // Bucketing the fetched plans by start date

  /** The plans whose start date is `date`, in their original order. */
  function StartsOn(plans: seq<MealPlan>, date: string): (r: seq<MealPlan>)
    ensures |r| <= |plans|
  {
    if plans == [] then []
    else
      var last := plans[|plans| - 1];
      StartsOn(plans[..|plans| - 1], date) + (if SafeParseDate(last.fromDate) == date then [last] else [])
  }

  /** A plan is listed under `date` exactly when its start date is `date`. */
  lemma {:induction false} StartsOnMembers(plans: seq<MealPlan>, date: string, x: MealPlan)
    ensures x in StartsOn(plans, date) <==> x in plans && SafeParseDate(x.fromDate) == date
  {
    if plans != [] {
      var init := plans[..|plans| - 1];
      StartsOnMembers(init, date, x);
      assert plans == init + [plans[|plans| - 1]];
    }
  }

  /** What `mealPlansByDate` holds for `date`: `mealPlansByDate[date] ?: emptyList()`. */
  function Bucket(byDate: map<string, seq<MealPlan>>, date: string): seq<MealPlan> {
    if date in byDate then byDate[date] else []
  }

  /**
   * The `forEach` that fills `mealPlansByDate`: each plan whose start date is
   * one of `dates` is appended to that date's list; the others are skipped.
   */
  method BucketByStartDate(dates: seq<string>, plans: seq<MealPlan>) returns (byDate: map<string, seq<MealPlan>>)
    ensures forall d :: d in byDate ==> d in dates
    ensures forall d :: d in dates ==> Bucket(byDate, d) == StartsOn(plans, d)
  {
    byDate := map[];
    for i := 0 to |plans|
      invariant forall d :: d in byDate ==> d in dates
      invariant forall d :: d in dates ==> Bucket(byDate, d) == StartsOn(plans[..i], d)
    {
      assert plans[..i + 1][..i] == plans[..i];
      var fromDate := SafeParseDate(plans[i].fromDate);
      if fromDate in dates {
        byDate := byDate[fromDate := Bucket(byDate, fromDate) + [plans[i]]];
      }
    }
    assert plans[..|plans|] == plans;
  }

  /** `dates.map { date -> Pair(date, mealPlansByDate[date] ?: emptyList()) }`. */
  function DaysFrom(dates: seq<string>, byDate: map<string, seq<MealPlan>>): (days: seq<DayMeals>)
    ensures |days| == |dates|
  {
    if dates == [] then [] else [DayMeals(dates[0], Bucket(byDate, dates[0]))] + DaysFrom(dates[1..], byDate)
  }

  /** The week as the service shows it: each date with the plans that start on it. */
  function WeekMeals(dates: seq<string>, plans: seq<MealPlan>): (days: seq<DayMeals>)
    ensures |days| == |dates|
  {
    if dates == [] then [] else [DayMeals(dates[0], StartsOn(plans, dates[0]))] + WeekMeals(dates[1..], plans)
  }

  lemma {:induction false} WeekMealsAt(dates: seq<string>, plans: seq<MealPlan>, i: nat)
    requires i < |dates|
    ensures WeekMeals(dates, plans)[i] == DayMeals(dates[i], StartsOn(plans, dates[i]))
  {
    if i > 0 {
      WeekMealsAt(dates[1..], plans, i - 1);
    }
  }

  /** Reading the buckets off date by date gives the week's plans. */
  lemma {:induction false} DaysFromBuckets(dates: seq<string>, byDate: map<string, seq<MealPlan>>, plans: seq<MealPlan>)
    requires forall d :: d in dates ==> Bucket(byDate, d) == StartsOn(plans, d)
    ensures DaysFrom(dates, byDate) == WeekMeals(dates, plans)
  {
    if dates != [] {
      assert dates[0] in dates;
      DaysFromBuckets(dates[1..], byDate, plans);
    }
  }

  /** The plans a fetch outcome contributes: the body's results, or none at all. */
  function FetchedPlans(outcome: FetchOutcome): (plans: seq<MealPlan>)
    ensures !(outcome.Success? && outcome.results.Some?) ==> plans == []
  {
    if outcome.Success? && outcome.results.Some? then outcome.results.value else []
  }

  /** `dailyMeals` after a refresh that got as far as the request. */
  function Refreshed(dates: seq<string>, outcome: FetchOutcome): seq<DayMeals> {
    WeekMeals(dates, FetchedPlans(outcome))
  }

  /**
   * After a refresh the days are the window's dates in order; on an HTTP
   * error, an exception or a missing body every day is empty.
   */
  lemma RefreshedDays(dates: seq<string>, outcome: FetchOutcome, i: nat)
    requires i < |dates|
    ensures |Refreshed(dates, outcome)| == |dates| && Refreshed(dates, outcome)[i].date == dates[i]
    ensures Refreshed(dates, outcome)[i].meals == StartsOn(FetchedPlans(outcome), dates[i])
    ensures !(outcome.Success? && outcome.results.Some?) ==> Refreshed(dates, outcome)[i].meals == []
  {
    WeekMealsAt(dates, FetchedPlans(outcome), i);
  }

  /**
   * A fetched plan is shown on day `i` of the week exactly when its start
   * date is that day's date; so it shows on at most one day, and not at all
   * when it starts outside the window.
   */
  lemma PlanLandsOnItsStartDate(today: Date, plans: seq<MealPlan>, x: MealPlan, i: nat)
    requires InRange(today) && i < 7
    ensures x in WeekMeals(WeekDates(today), plans)[i].meals
        <==> x in plans && SafeParseDate(x.fromDate) == WeekDates(today)[i]
    ensures forall j :: (0 <= j < 7 && x in WeekMeals(WeekDates(today), plans)[i].meals
                                    && x in WeekMeals(WeekDates(today), plans)[j].meals) ==> i == j
    ensures SafeParseDate(x.fromDate) !in WeekDates(today) ==> x !in WeekMeals(WeekDates(today), plans)[i].meals
  {
    var dates := WeekDates(today);
    WeekMealsAt(dates, plans, i);
    StartsOnMembers(plans, dates[i], x);
    forall j | 0 <= j < 7 && x in WeekMeals(dates, plans)[i].meals && x in WeekMeals(dates, plans)[j].meals
      ensures i == j
    {
      WeekMealsAt(dates, plans, j);
      StartsOnMembers(plans, dates[j], x);
      WeekDatesOrdered(today, i, j);
    }
  }

  /** The plans of the grouping unit test: three on Saturday 2025-12-06, one the week before, one on Friday 2025-12-12. */
  function GroupingTestPlans(): seq<MealPlan> {
    [MealPlan(1, "Test Meal", None, "2025-12-06", None, "Lunch"),
     MealPlan(2, "Test Meal", None, "2025-12-06", None, "Dinner"),
     MealPlan(3, "Test Meal", None, "2025-12-06", Some("2025-12-07"), "Breakfast"),
     MealPlan(4, "Test Meal", None, "2025-12-01", None, "Lunch"),
     MealPlan(5, "Test Meal", None, "2025-12-12", Some("2025-12-14"), "Dinner")]
  }

  /** The start dates of the test plans. */
  lemma GroupingTestStarts()
    ensures var p := GroupingTestPlans();
            && SafeParseDate(p[0].fromDate) == "2025-12-06" && SafeParseDate(p[1].fromDate) == "2025-12-06"
            && SafeParseDate(p[2].fromDate) == "2025-12-06" && SafeParseDate(p[3].fromDate) == "2025-12-01"
            && SafeParseDate(p[4].fromDate) == "2025-12-12"
  {
  }

  /** `[x]` when `x` starts on `date`, else nothing. */
  function IfStartsOn(x: MealPlan, date: string): seq<MealPlan> {
    if SafeParseDate(x.fromDate) == date then [x] else []
  }

  /** `StartsOn` on five plans, plan by plan. */
  lemma StartsOnOfFive(a: MealPlan, b: MealPlan, c: MealPlan, d: MealPlan, e: MealPlan, date: string)
    ensures StartsOn([a, b, c, d, e], date) == StartsOn([a, b, c, d], date) + IfStartsOn(e, date)
    ensures StartsOn([a, b, c, d], date) == StartsOn([a, b, c], date) + IfStartsOn(d, date)
    ensures StartsOn([a, b, c], date) == StartsOn([a, b], date) + IfStartsOn(c, date)
    ensures StartsOn([a, b], date) == IfStartsOn(a, date) + IfStartsOn(b, date)
  {
    assert [a, b, c, d] + [e] == [a, b, c, d, e];
    StartsOnSnoc([a, b, c, d], e, date);
    assert [a, b, c] + [d] == [a, b, c, d];
    StartsOnSnoc([a, b, c], d, date);
    assert [a, b] + [c] == [a, b, c];
    StartsOnSnoc([a, b], c, date);
    assert [a] + [b] == [a, b];
    StartsOnSnoc([a], b, date);
    assert [] + [a] == [a];
    StartsOnSnoc([], a, date);
  }

  lemma StartsOnSnoc(init: seq<MealPlan>, x: MealPlan, date: string)
    ensures StartsOn(init + [x], date) == StartsOn(init, date) + IfStartsOn(x, date)
  {
    assert (init + [x])[..|init|] == init;
  }

  /** The service's grouping of the test plans: each on its start date, the earlier week's plan nowhere. */
  lemma GroupingExample()
    ensures var p := GroupingTestPlans();
            && StartsOn(p, "2025-12-06") == p[..3]
            && StartsOn(p, "2025-12-12") == [p[4]]
  {
    var p := GroupingTestPlans();
    GroupingTestStarts();
    assert p == [p[0], p[1], p[2], p[3], p[4]];
    StartsOnOfFive(p[0], p[1], p[2], p[3], p[4], "2025-12-06");
    StartsOnOfFive(p[0], p[1], p[2], p[3], p[4], "2025-12-12");
    assert p[..3] == [p[0], p[1], p[2]];
  }

  /**
   * Sunday 2025-12-07: the service shows nothing, although the test's range
   * rule places the Saturday-to-Sunday breakfast there as well.
   */
  lemma GroupingExampleSunday()
    ensures var p := GroupingTestPlans();
            StartsOn(p, "2025-12-07") == [] && SpansDate(p[2], "2025-12-07")
  {
    var p := GroupingTestPlans();
    var sun := "2025-12-07";
    var sat, dec1, fri := "2025-12-06", "2025-12-01", "2025-12-12";
    GroupingTestStarts();
    assert p == [p[0], p[1], p[2], p[3], p[4]];
    StartsOnOfFive(p[0], p[1], p[2], p[3], p[4], sun);
    assert sat[9] != sun[9] && dec1[9] != sun[9] && fri[8] != sun[8];
    BreakfastSpansSunday();
  }

  lemma BreakfastSpansSunday()
    ensures SpansDate(GroupingTestPlans()[2], "2025-12-07")
  {
    var breakfast := GroupingTestPlans()[2];
    var sat, sun := "2025-12-06", "2025-12-07";
    assert SafeParseDate(breakfast.fromDate) == sat && SafeParseDate(breakfast.toDate.value) == sun;
    LexLessAt(sat, sun, 9);
    LexLessAsymmetric(sat, sun);
    LexLessIrreflexive(sun);
  }

  // ---------------------------------------------------------------------------
  // One display row per day

  /** The row `updateFlattenedMeals` builds for a day. */
  function Row(day: DayMeals, parse: string -> Option<Date>, render: Date -> string): (g: GroupedMeal)
    ensures g.date == day.date && g.mealTypeName == None
    ensures g.dayDisplay == FormatDateForDisplay(day.date, parse, render)
    ensures g.meals == SortByPriority(day.meals)
  {
    var dayDisplay := FormatDateForDisplay(day.date, parse, render);
    if day.meals == [] then GroupedMeal(day.date, dayDisplay, None, [])
    else GroupedMeal(day.date, dayDisplay, None, SortByPriority(day.meals))
  }

  /** The rows of `days`, in the same order. */
  function Flattened(days: seq<DayMeals>, parse: string -> Option<Date>, render: Date -> string): (rows: seq<GroupedMeal>)
    ensures |rows| == |days|
  {
    if days == [] then [] else Flattened(days[..|days| - 1], parse, render) + [Row(days[|days| - 1], parse, render)]
  }

  /**
   * One row per day, in date order: row `i` is day `i`'s date with no meal
   * type and the day's meals sorted lunch, dinner, others.
   */
  lemma {:induction false} FlattenedAt(days: seq<DayMeals>, parse: string -> Option<Date>, render: Date -> string, i: nat)
    requires i < |days|
    ensures Flattened(days, parse, render)[i] == Row(days[i], parse, render)
  {
    if i < |days| - 1 {
      FlattenedAt(days[..|days| - 1], parse, render, i);
    }
  }

  // ---------------------------------------------------------------------------
  // Row texts

  /** The first fifteen characters of a longer name, followed by "...". */
  function Truncate(name: string): (shown: string)
    ensures |name| <= MaxRecipeNameLength ==> shown == name
    ensures |name| > MaxRecipeNameLength ==>
      |shown| == MaxRecipeNameLength + 3 && name[..MaxRecipeNameLength] <= shown && EndsWith(shown, "...")
  {
    if |name| > MaxRecipeNameLength then name[..MaxRecipeNameLength] + "..." else name
  }

  /** The span suffix: shown only for a multi-day plan with an end date and a non-empty span. */
  function Suffix(meal: MealPlan, isMultiDay: MealPlan -> bool, rangeSpan: (string, string) -> string): (suffix: string)
    ensures suffix != [] <==>
      isMultiDay(meal) && meal.toDate.Some?
      && rangeSpan(SafeParseDate(meal.fromDate), SafeParseDate(meal.toDate.value)) != []
    ensures suffix != [] ==>
      suffix == " (" + rangeSpan(SafeParseDate(meal.fromDate), SafeParseDate(meal.toDate.value)) + ")"
  {
    if isMultiDay(meal) then
      var fromDate := SafeParseDate(meal.fromDate);
      match meal.toDate
      case Some(to) =>
        var span := rangeSpan(fromDate, SafeParseDate(to));
        if span != [] then " (" + span + ")" else ""
      case None => ""
    else ""
  }

  /** One recipe card: the truncated name with the span suffix after it, and the edit extras. */
  function CardFor(meal: MealPlan, isMultiDay: MealPlan -> bool, rangeSpan: (string, string) -> string): Card {
    var displayName := GetDisplayName(meal.recipe, meal.title);
    var toDate := if meal.toDate.Some? then Some(SafeParseDate(meal.toDate.value)) else None;
    Card(Truncate(displayName) + Suffix(meal, isMultiDay, rangeSpan), meal.id, displayName,
         SafeParseDate(meal.fromDate), toDate)
  }

  function Cards(meals: seq<MealPlan>, isMultiDay: MealPlan -> bool, rangeSpan: (string, string) -> string): (cards: seq<Card>)
    ensures |cards| == |meals|
  {
    if meals == [] then [] else Cards(meals[..|meals| - 1], isMultiDay, rangeSpan) + [CardFor(meals[|meals| - 1], isMultiDay, rangeSpan)]
  }

  /** `groupedMeal.meals.take(5)`. */
  function Shown(meals: seq<MealPlan>): (shown: seq<MealPlan>)
    ensures |shown| <= MaxCards && shown <= meals
    ensures |meals| <= MaxCards ==> shown == meals
    ensures |meals| > MaxCards ==> shown == meals[..MaxCards]
  {
    if |meals| <= MaxCards then meals else meals[..MaxCards]
  }

  /** The row `getViewAt` renders for `g`. */
  function RowViewOf(g: GroupedMeal, isMultiDay: MealPlan -> bool, rangeSpan: (string, string) -> string): RowView {
    RowView(g.dayDisplay, Cards(Shown(g.meals), isMultiDay, rangeSpan))
  }

  /**
   * A row shows the first five meals (all of them when there are fewer), card
   * `i` for meal `i`: its name cut to fifteen characters plus "..." when
   * longer, then the span suffix.
   */
  lemma {:induction false} RowShowsFirstFive(g: GroupedMeal, isMultiDay: MealPlan -> bool, rangeSpan: (string, string) -> string, i: nat)
    requires i < |g.meals| && i < MaxCards
    ensures |RowViewOf(g, isMultiDay, rangeSpan).cards| == if |g.meals| < MaxCards then |g.meals| else MaxCards
    ensures i < |RowViewOf(g, isMultiDay, rangeSpan).cards|
    ensures RowViewOf(g, isMultiDay, rangeSpan).cards[i] == CardFor(g.meals[i], isMultiDay, rangeSpan)
  {
    CardsAt(Shown(g.meals), isMultiDay, rangeSpan, i);
  }

  lemma {:induction false} CardsAt(meals: seq<MealPlan>, isMultiDay: MealPlan -> bool, rangeSpan: (string, string) -> string, i: nat)
    requires i < |meals|
    ensures Cards(meals, isMultiDay, rangeSpan)[i] == CardFor(meals[i], isMultiDay, rangeSpan)
  {
    if i < |meals| - 1 {
      CardsAt(meals[..|meals| - 1], isMultiDay, rangeSpan, i);
    }
  }

  /**
   * The edit dialog opened from a card of the week's row `i` receives that
   * day's date as `from_date`.
   */
  lemma CardOpensItsDay(today: Date, outcome: FetchOutcome, parse: string -> Option<Date>, render: Date -> string,
                        isMultiDay: MealPlan -> bool, rangeSpan: (string, string) -> string, i: nat, c: Card)
    requires InRange(today) && i < 7
    requires c in RowViewOf(Flattened(Refreshed(WeekDates(today), outcome), parse, render)[i], isMultiDay, rangeSpan).cards
    ensures c.fromDate == WeekDates(today)[i]
  {
    var dates := WeekDates(today);
    var days := Refreshed(dates, outcome);
    var g := Flattened(days, parse, render)[i];
    FlattenedAt(days, parse, render, i);
    RefreshedDays(dates, outcome, i);
    var cards := RowViewOf(g, isMultiDay, rangeSpan).cards;
    var k :| 0 <= k < |cards| && cards[k] == c;
    RowShowsFirstFive(g, isMultiDay, rangeSpan, k);
    var meal := g.meals[k];
    SortByPriorityIsStableSort(days[i].meals);
    assert meal in multiset(days[i].meals);
    StartsOnMembers(FetchedPlans(outcome), dates[i], meal);
  }

  /**
   * With a parser that reads back what `Format` writes, row `i` of the week
   * is headed by the display rendering of the window's day `i`.
   */
  lemma RowHeadingOfWindowDay(today: Date, outcome: FetchOutcome, parse: string -> Option<Date>, render: Date -> string, i: nat)
    requires InRange(today) && i < 7
    requires parse(Format(WeekDay(today, i))) == Some(WeekDay(today, i))
    ensures Flattened(Refreshed(WeekDates(today), outcome), parse, render)[i].dayDisplay == render(WeekDay(today, i))
  {
    var days := Refreshed(WeekDates(today), outcome);
    RefreshedDays(WeekDates(today), outcome, i);
    FlattenedAt(days, parse, render, i);
    WeekDatesAt(today, i);
  }

  // ---------------------------------------------------------------------------
  // The factory

  /** The request a refresh sends: the configured server, the bearer token, first to last day of the window. */
  function WeekRequest(url: string, apiKey: string, dates: seq<string>): (r: Request)
    requires dates != []
  {
    Request(url, "Bearer " + apiKey, dates[0], dates[|dates| - 1])
  }

  /** The fetch covers Saturday to the Friday six days later. */
  lemma WeekRequestRange(today: Date, url: string, apiKey: string)
    requires InRange(today)
    ensures WeekRequest(url, apiKey, WeekDates(today)).fromDate == Format(WeekStart(today))
    ensures DayOfWeek(WeekStart(today)) == SATURDAY
    ensures WeekRequest(url, apiKey, WeekDates(today)).toDate == Format(WeekDay(today, 6))
    ensures DayOfWeek(WeekDay(today, 6)) == FRIDAY
  {
    FetchRangeIsSaturdayToFriday(today);
  }

  class RemoteViewsFactory {
    var dailyMeals: seq<DayMeals>
    var flattenedMeals: seq<GroupedMeal>
    const appWidgetId: int
    /** `sdf.parse` and `dayDisplayFormat.format`. */
    const parse: string -> Option<Date>
    const dayDisplay: Date -> string
    /** `MealPlanUtils.isMultiDayMeal` and `formatDateRangeSpan`. */
    const isMultiDay: MealPlan -> bool
    const rangeSpan: (string, string) -> string

    /** `flattenedMeals` is always the rows of `dailyMeals`. */
    ghost predicate Valid()
      reads this
    {
      flattenedMeals == Flattened(dailyMeals, parse, dayDisplay)
    }

    /** The widget id comes from the intent, `INVALID_APPWIDGET_ID` when it has none. */
    constructor (widgetIdExtra: Option<int>, parse: string -> Option<Date>, dayDisplay: Date -> string,
                 isMultiDay: MealPlan -> bool, rangeSpan: (string, string) -> string)
      ensures Valid() && dailyMeals == [] && flattenedMeals == []
      ensures appWidgetId == widgetIdExtra.GetOr(InvalidAppWidgetId)
      ensures this.parse == parse && this.dayDisplay == dayDisplay
      ensures this.isMultiDay == isMultiDay && this.rangeSpan == rangeSpan
    {
      dailyMeals := [];
      flattenedMeals := [];
      appWidgetId := widgetIdExtra.GetOr(InvalidAppWidgetId);
      this.parse := parse;
      this.dayDisplay := dayDisplay;
      this.isMultiDay := isMultiDay;
      this.rangeSpan := rangeSpan;
    }

    /** The week's dates with empty lists, shown before the first fetch. */
    method OnCreate(today: Date)
      requires InRange(today)
      modifies this
      ensures Valid() && dailyMeals == WeekMeals(WeekDates(today), [])
    {
      var dates := ComputeWeekDates(today);
      dailyMeals := DaysFrom(dates, map[]);
      DaysFromBuckets(dates, map[], []);
      UpdateFlattenedMeals();
    }

    /** Rebuilds `flattenedMeals` from `dailyMeals`, one row per day. */
    method UpdateFlattenedMeals()
      modifies this`flattenedMeals
      ensures Valid()
    {
      flattenedMeals := [];
      for i := 0 to |dailyMeals|
        invariant flattenedMeals == Flattened(dailyMeals[..i], parse, dayDisplay)
      {
        assert dailyMeals[..i + 1][..i] == dailyMeals[..i];
        var day := dailyMeals[i];
        var dayDisplayText := FormatDateForDisplay(day.date, parse, dayDisplay);
        if day.meals == [] {
          flattenedMeals := flattenedMeals + [GroupedMeal(day.date, dayDisplayText, None, [])];
        } else {
          var sortedMeals := SortByPriority(day.meals);
          flattenedMeals := flattenedMeals + [GroupedMeal(day.date, dayDisplayText, None, sortedMeals)];
        }
      }
      assert dailyMeals[..|dailyMeals|] == dailyMeals;
    }

    /**
     * A refresh: nothing changes without a URL and a token; otherwise the week
     * is rebuilt from whatever the request for Saturday..Friday returned.
     */
    method OnDataSetChanged(prefs: Preferences, today: Date, fetch: Request -> FetchOutcome)
      requires InRange(today)
      modifies this
      ensures Valid() || (dailyMeals == old(dailyMeals) && flattenedMeals == old(flattenedMeals))
      ensures
        var url := prefs.GetString(UrlKey(appWidgetId), "");
        var apiKey := prefs.GetString(ApiKeyKey(appWidgetId), "");
        if IsBlank(url) || IsBlank(apiKey) then
          dailyMeals == old(dailyMeals) && flattenedMeals == old(flattenedMeals)
        else
          Valid() && dailyMeals == Refreshed(WeekDates(today), fetch(WeekRequest(url, apiKey, WeekDates(today))))
    {
      var apiKey := prefs.GetString(ApiKeyKey(appWidgetId), "");
      var tandoorUrl := prefs.GetString(UrlKey(appWidgetId), "");
      if IsBlank(tandoorUrl) || IsBlank(apiKey) {
        return;
      }
      var dates := ComputeWeekDates(today);
      var outcome := fetch(Request(tandoorUrl, "Bearer " + apiKey, dates[0], dates[|dates| - 1]));
      var byDate: map<string, seq<MealPlan>> := map[];
      if outcome.Success? && outcome.results.Some? {
        byDate := BucketByStartDate(dates, outcome.results.value);
      }
      dailyMeals := DaysFrom(dates, byDate);
      DaysFromBuckets(dates, byDate, FetchedPlans(outcome));
      UpdateFlattenedMeals();
    }

    /** `getCount`: the number of rows, one per day. */
    method GetCount() returns (n: int)
      requires Valid()
      ensures n == |dailyMeals|
    {
      n := |flattenedMeals|;
    }

    /** The texts and edit extras of row `position`'s cards. */
    method GetViewAt(position: int) returns (view: RowView)
      requires 0 <= position < |flattenedMeals|
      ensures view == RowViewOf(flattenedMeals[position], isMultiDay, rangeSpan)
    {
      var groupedMeal := flattenedMeals[position];
      var shown := Shown(groupedMeal.meals);
      var cards: seq<Card> := [];
      for index := 0 to |shown|
        invariant cards == Cards(shown[..index], isMultiDay, rangeSpan)
      {
        assert shown[..index + 1][..index] == shown[..index];
        var meal := shown[index];
        var displayName := GetDisplayName(meal.recipe, meal.title);
        var suffix := Suffix(meal, isMultiDay, rangeSpan);
        var truncatedName := Truncate(displayName) + suffix;
        var toDate := if meal.toDate.Some? then Some(SafeParseDate(meal.toDate.value)) else None;
        cards := cards + [Card(truncatedName, meal.id, displayName, SafeParseDate(meal.fromDate), toDate)];
      }
      assert shown[..|shown|] == shown;
      view := RowView(groupedMeal.dayDisplay, cards);
    }
  }
}
