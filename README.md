# Tandoor meal-plan widget, modelled in Dafny

An Android home-screen widget shows one week of meal plans from a Tandoor
server. The week always runs Saturday to Friday and contains today. This
project models the widget's logic and proves properties of it:

- **The week window.** The Saturday search steps back from today. The seven
  `yyyy-MM-dd` dates follow on from it. See `Week` and `Dates`.
- **Building the list.** The widget reads the server URL and API token of
  its own instance from the preferences file. It asks the server for the
  plans from Saturday to Friday. Each returned plan is put on the day it
  starts, provided that day is in the window. The days are then turned into
  display rows. In each row the meals are sorted lunch first, then dinner,
  then everything else, and that sort is stable. A row shows at most five
  recipe cards, each with a truncated name and, for multi-day plans, a
  date-span suffix. See
  `WidgetService`.
- **The helpers the list uses.** See `MealPlanUtils`.
- **The edit dialog.** A click on a card opens a dialog that moves the plan
  to another day of the week or extends it to an end date. The dialog
  refuses to save when the configuration is missing, or when the end comes
  before the start. Otherwise it sends the update request. See
  `MealPlanEdit`.
- **The configuration screen.** It stores the trimmed URL, with a trailing
  slash, and the trimmed token under the widget's own keys. See `Config`
  and `Prefs`.

The state kept by the Kotlin objects is modelled as Dafny classes:

- `RemoteViewsFactory` holds `dailyMeals` and `flattenedMeals`.
- `MealPlanEditor` holds the dialog's fields and spinner positions.
- `ConfigScreen` holds the text fields.
- `Preferences` holds the preferences file.

The loops are modelled as methods proved against specification functions:

- The Saturday search: `FindWeekStart` against `WeekStart`.
- The seven-date map: `ComputeWeekDates` against `WeekDates`.
- Bucketing by start date: `BucketByStartDate` against `StartsOn`.
- Row building: `UpdateFlattenedMeals` against `Flattened`.

Several things are function parameters rather than fixed code:

- **Clock and calendar.** Today's date is an argument. The calendar is the
  Gregorian one, with `java.util.Calendar`'s weekday numbers (Sunday 1 …
  Saturday 7). Today is taken from 1583 on, after `GregorianCalendar`'s
  switch from Julian dates on 1582-10-15.
- **`SimpleDateFormat`.** `parse` and `render` are arguments.
- **The HTTP call.** It is a function from the request to its outcome:
  success with or without a body, an HTTP error, or an exception.
- **Multi-day helpers.** `isMultiDayMeal` and `formatDateRangeSpan` are
  arguments.

## Model

Source paths are relative to the repository root.

| member | source | states |
|---|---|---|
| Text.Trim | app/src/main/java/com/example/tandoorwidget/ConfigActivity.kt:41-42 | `trim()`: the result has no whitespace at either end, and it is empty exactly when the input is blank |
| Text.TrimIdempotent | app/src/main/java/com/example/tandoorwidget/ConfigActivity.kt:41-42 | trimming a trimmed string changes nothing |
| Text.TrimInverse | app/src/main/java/com/example/tandoorwidget/ConfigActivity.kt:41-42 | trimming removes exactly the blank margins around a core that has no whitespace at its ends |
| Text.LexLessTotal | app/src/main/java/com/example/tandoorwidget/MealPlanEditActivity.kt:150 | `String` comparison is total: two strings are equal or one sorts before the other |
| Text.LexLessAsymmetric | app/src/main/java/com/example/tandoorwidget/MealPlanEditActivity.kt:150 | no two strings each sort before the other |
| Text.LexLessConcat | app/src/main/java/com/example/tandoorwidget/MealPlanEditActivity.kt:150 | comparing two strings with equal-length prefixes compares the prefixes first, then the rests |
| Text.LowercaseIsLowercase | app/src/main/java/com/example/tandoorwidget/TandoorWidgetService.kt:75-77 | the character-by-character match used for the `when` on `lowercase()` holds exactly when the lowercased meal type equals the word |
| Text.NatToStringRoundTrip | app/src/main/java/com/example/tandoorwidget/ConfigActivity.kt:56-57 | reading back the decimal digits of a widget id gives the id |
| Text.IntToStringInjective | app/src/main/java/com/example/tandoorwidget/ConfigActivity.kt:56-57 | two widget ids with the same decimal rendering are equal |
| Dates.NextDayCounts | app/src/main/java/com/example/tandoorwidget/TandoorWidgetService.kt:113 | `calendar.add(DATE, 1)` gives a valid date one day number later |
| Dates.PrevDayCounts | app/src/main/java/com/example/tandoorwidget/TandoorWidgetService.kt:106 | `calendar.add(DATE, -1)` gives a valid date one day number earlier |
| Dates.PadOrder | app/src/main/java/com/example/tandoorwidget/TandoorWidgetService.kt:29 | zero-padded fixed-width numbers compare as strings exactly as they compare as numbers, and are equal only when the numbers are |
| Dates.FormatOrder | app/src/main/java/com/example/tandoorwidget/MealPlanEditActivity.kt:150 | a `yyyy-MM-dd` rendering sorts before another exactly when its date is earlier |
| Dates.FormatInjective | app/src/main/java/com/example/tandoorwidget/TandoorWidgetService.kt:29 | two dates with the same `yyyy-MM-dd` rendering are the same date |
| Week.WeekStart | app/src/main/java/com/example/tandoorwidget/TandoorWidgetService.kt:103-107 | the week's start is a valid Saturday at most six days before today |
| Week.FindWeekStart | app/src/main/java/com/example/tandoorwidget/TandoorWidgetService.kt:103-107 | the Saturday search loop, stepping back one day at a time, stops at `WeekStart(today)` |
| Week.WeekStartIsLatestSaturday | app/src/main/java/com/example/tandoorwidget/TandoorWidgetService.kt:103-107 | no Saturday on or before today comes after the week's start |
| Week.SaturdayStartsItsOwnWeek | app/src/main/java/com/example/tandoorwidget/TandoorWidgetService.kt:104 | on a Saturday the week starts today |
| Week.ComputeWeekDates | app/src/main/java/com/example/tandoorwidget/TandoorWidgetService.kt:111-115 | the `(0..6).map` loop yields `WeekDates(today)` |
| Week.WeekDatesAt | app/src/main/java/com/example/tandoorwidget/TandoorWidgetService.kt:111-115 | date `i` of the window is the rendering of the day `i` days after the week's start |
| Week.WeekDatesOrdered | app/src/main/java/com/example/tandoorwidget/TandoorWidgetService.kt:111-115 | the seven date strings are pairwise distinct and sort as strings in window order, in both directions |
| Week.FetchRangeIsSaturdayToFriday | app/src/main/java/com/example/tandoorwidget/TandoorWidgetService.kt:123-124 | the first date is the Saturday that starts the week and the last is the Friday six days later |
| Prefs.KeysDistinct | app/src/main/java/com/example/tandoorwidget/ConfigActivity.kt:56-57 | a URL key never equals a token key, and each key names exactly one widget |
| Prefs.Preferences.GetString | app/src/main/java/com/example/tandoorwidget/TandoorWidgetService.kt:89-90 | `getString(key, default)`: the stored value, or the default when the key is absent |
| Prefs.Preferences.PutString | app/src/main/java/com/example/tandoorwidget/ConfigActivity.kt:55-58 | the edit stores the value under its key, and that key then reads back the value |
| MealPlanUtils.GetDisplayName | app/src/main/java/com/example/tandoorwidget/MealPlanUtils.kt:23-30 | a real entry shows the recipe's name, a placeholder shows the plan's title |
| MealPlanUtils.DisplayNameExamples | app/src/test/java/com/example/tandoorwidget/MealPlanUtilsTest.kt:11-41 | the unit-test cases the code meets; a placeholder with an empty title shows "" rather than "Untitled"; a recipe with an empty name shows "" rather than the title |
| MealPlanUtils.GetRecipeUrl | app/src/main/java/com/example/tandoorwidget/MealPlanUtils.kt:39-48 | a recipe id is returned exactly for a present recipe with a positive id |
| MealPlanUtils.SafeParseDate | app/src/main/java/com/example/tandoorwidget/MealPlanUtils.kt:57-69 | the result is a prefix of the input: its first ten characters, or all of it when it is shorter |
| MealPlanUtils.SafeParseDateIdempotent | app/src/main/java/com/example/tandoorwidget/MealPlanUtils.kt:57-69 | cutting an already cut date again changes nothing |
| MealPlanUtils.SafeParseDateOfFormatted | app/src/main/java/com/example/tandoorwidget/MealPlanUtils.kt:57-69 | a rendered `yyyy-MM-dd` date is its own date part |
| MealPlanUtils.SafeParseDateExamples | app/src/test/java/com/example/tandoorwidget/MealPlanUtilsTest.kt:63-85 | the unit-test cases, including the invalid date kept as is |
| MealPlanUtils.FormatDateForDisplay | app/src/main/java/com/example/tandoorwidget/MealPlanUtils.kt:80-97 | a date that parses is shown in the display format; otherwise the input is returned unchanged |
| MealPlanUtils.SpansDateMeetsMultiDayTest | app/src/test/java/com/example/tandoorwidget/WidgetLogicTest.kt:138-149 | the inclusive start-to-end span rule accepts the plan's first, middle and last day and rejects the days just outside it |
| WidgetService.Priority | app/src/main/java/com/example/tandoorwidget/TandoorWidgetService.kt:74-80 | the sort key is 0 exactly when the lowercased meal type is "lunch", 1 exactly when it is "dinner", and 2 otherwise |
| WidgetService.PriorityExamples | app/src/main/java/com/example/tandoorwidget/TandoorWidgetService.kt:75-78 | "Lunch" and "Dinner" match their words regardless of case; "Snack" and "Breakfast" match neither |
| WidgetService.WithKeyHasKey | app/src/main/java/com/example/tandoorwidget/TandoorWidgetService.kt:74-80 | every meal in a key class has that key |
| WidgetService.SortByKeyOrdered | app/src/main/java/com/example/tandoorwidget/TandoorWidgetService.kt:74-80 | the sorted meals are in key order |
| WidgetService.ClassesPartition | app/src/main/java/com/example/tandoorwidget/TandoorWidgetService.kt:74-80 | the three key classes together are a permutation of the meals |
| WidgetService.SortByKeyStable | app/src/main/java/com/example/tandoorwidget/TandoorWidgetService.kt:74-80 | sorting keeps each key class in its original order |
| WidgetService.SortedIsItsClasses | app/src/main/java/com/example/tandoorwidget/TandoorWidgetService.kt:74-80 | a sequence already in key order is its own stable sort |
| WidgetService.SortByPriorityIsStableSort | app/src/main/java/com/example/tandoorwidget/TandoorWidgetService.kt:74-80 | `sortedBy`: lunch, then dinner, then the rest; a permutation of the day's meals; stable within each class |
| WidgetService.SortByPriorityUnique | app/src/main/java/com/example/tandoorwidget/TandoorWidgetService.kt:74-80 | any sequence that is ordered by priority and keeps each class's order equals the model's sort, so the model is the only stable sort |
| WidgetService.SortExample | app/src/test/java/com/example/tandoorwidget/WidgetLogicTest.kt:107-135 | the unit test's four meals sort to Lunch, Dinner, Snack, Breakfast |
| WidgetService.StartsOnMembers | app/src/main/java/com/example/tandoorwidget/TandoorWidgetService.kt:158-164 | a plan is in a date's bucket exactly when it is one of the plans and its date part is that date |
| WidgetService.BucketByStartDate | app/src/main/java/com/example/tandoorwidget/TandoorWidgetService.kt:155-164 | the map has keys only for window dates, and each window date's list is the plans starting on it, in response order |
| WidgetService.WeekMealsAt | app/src/main/java/com/example/tandoorwidget/TandoorWidgetService.kt:168-181 | day `i` pairs date `i` with the plans that start on it |
| WidgetService.DaysFromBuckets | app/src/main/java/com/example/tandoorwidget/TandoorWidgetService.kt:168-181 | `dates.map { mealPlansByDate[date] ?: emptyList() }` over a correct bucket map gives the week's days |
| WidgetService.RefreshedDays | app/src/main/java/com/example/tandoorwidget/TandoorWidgetService.kt:168-200 | after a refresh the days are the window's dates in order; on an HTTP error, an exception or a missing body every day is empty |
| WidgetService.PlanLandsOnItsStartDate | app/src/main/java/com/example/tandoorwidget/TandoorWidgetService.kt:155-164 | a plan appears on a day exactly when that day is its start date; it appears on at most one day; a plan starting outside the window appears nowhere |
| WidgetService.GroupingExample | app/src/test/java/com/example/tandoorwidget/WidgetLogicTest.kt:80-88 | with the grouping test's plans, Saturday holds plans 1, 2 and 3 and Friday holds plan 5 |
| WidgetService.GroupingExampleSunday | app/src/test/java/com/example/tandoorwidget/WidgetLogicTest.kt:90-94 | the service puts nothing on Sunday, although the test's span rule puts the multi-day breakfast there |
| WidgetService.Row | app/src/main/java/com/example/tandoorwidget/TandoorWidgetService.kt:65-81 | a day's row carries its date, its display heading, no meal type, and its meals sorted by priority |
| WidgetService.FlattenedAt | app/src/main/java/com/example/tandoorwidget/TandoorWidgetService.kt:63-84 | row `i` of `flattenedMeals` is the row of day `i` |
| WidgetService.Truncate | app/src/main/java/com/example/tandoorwidget/TandoorWidgetService.kt:259-261 | a name of at most fifteen characters is kept; a longer one becomes its first fifteen characters plus "..." |
| WidgetService.Suffix | app/src/main/java/com/example/tandoorwidget/TandoorWidgetService.kt:249-256 | the suffix is non-empty exactly for a multi-day plan with an end date and a non-empty span, and is then " (span)" |
| WidgetService.Shown | app/src/main/java/com/example/tandoorwidget/TandoorWidgetService.kt:244 | `take(5)`: all the meals when there are five or fewer, otherwise exactly the first five |
| WidgetService.RowShowsFirstFive | app/src/main/java/com/example/tandoorwidget/TandoorWidgetService.kt:239-279 | a row has min(meals, 5) cards, and for each of the first five meals `i` there is a card `i`, built from meal `i` |
| WidgetService.CardsAt | app/src/main/java/com/example/tandoorwidget/TandoorWidgetService.kt:244-279 | card `i` is built from meal `i` |
| WidgetService.CardOpensItsDay | app/src/main/java/com/example/tandoorwidget/TandoorWidgetService.kt:270-274 | every card in day `i`'s row opens the edit dialog with a start date equal to date `i` of the window |
| WidgetService.RowHeadingOfWindowDay | app/src/main/java/com/example/tandoorwidget/TandoorWidgetService.kt:65-66 | with a parser that reads back `yyyy-MM-dd`, row `i` of the week is headed by the display rendering of the window's day `i` |
| WidgetService.WeekRequestRange | app/src/main/java/com/example/tandoorwidget/TandoorWidgetService.kt:119-129 | the request asks from the week's Saturday to the Friday six days later |
| WidgetService.RemoteViewsFactory.constructor | app/src/main/java/com/example/tandoorwidget/TandoorWidgetService.kt:24-31 | empty lists, and the widget id from the intent (invalid when it has none) |
| WidgetService.RemoteViewsFactory.OnCreate | app/src/main/java/com/example/tandoorwidget/TandoorWidgetService.kt:41-61 | the week's seven dates with empty meal lists, and rows matching them |
| WidgetService.RemoteViewsFactory.UpdateFlattenedMeals | app/src/main/java/com/example/tandoorwidget/TandoorWidgetService.kt:63-84 | `flattenedMeals` is rebuilt as the rows of `dailyMeals` |
| WidgetService.RemoteViewsFactory.OnDataSetChanged | app/src/main/java/com/example/tandoorwidget/TandoorWidgetService.kt:86-201 | without a URL or token nothing changes; otherwise the days are the refresh of the Saturday-to-Friday request's outcome, and the rows match them |
| WidgetService.RemoteViewsFactory.GetCount | app/src/main/java/com/example/tandoorwidget/TandoorWidgetService.kt:223-225 | the number of rows, which equals the number of days |
| WidgetService.RemoteViewsFactory.GetViewAt | app/src/main/java/com/example/tandoorwidget/TandoorWidgetService.kt:227-284 | the view at a position is that row's heading and its cards |
| MealPlanEdit.IndexOf | app/src/main/java/com/example/tandoorwidget/MealPlanEditActivity.kt:68 | `indexOf`: the first position holding the string, or -1 exactly when it is absent |
| MealPlanEdit.ToDateAt | app/src/main/java/com/example/tandoorwidget/MealPlanEditActivity.kt:143-147 | position 0 of the extend spinner means no end date, and every other position names a day |
| MealPlanEdit.PresetRoundTrip | app/src/main/java/com/example/tandoorwidget/MealPlanEditActivity.kt:67-89 | the preset spinner positions read back the plan's own start and end dates when those are in the window, and "no end date" otherwise |
| MealPlanEdit.ExtendPositionRoundTrip | app/src/main/java/com/example/tandoorwidget/MealPlanEditActivity.kt:84-89 | presetting the extend spinner from the end date it stands for gives back the same position |
| MealPlanEdit.GuardComparesPositions | app/src/main/java/com/example/tandoorwidget/MealPlanEditActivity.kt:149-153 | the string comparison `newToDate < newFromDate` is the same as the end day coming before the start day in the window |
| MealPlanEdit.MealPlanEditor.constructor | app/src/main/java/com/example/tandoorwidget/MealPlanEditActivity.kt:25-31 | the field defaults: id -1, empty start date, no end date, invalid widget id |
| MealPlanEdit.MealPlanEditor.FormatDateForDisplay | app/src/main/java/com/example/tandoorwidget/MealPlanEditActivity.kt:115-126 | a date that parses is shown in the display format; otherwise the input is returned unchanged |
| MealPlanEdit.MealPlanEditor.Labels | app/src/main/java/com/example/tandoorwidget/MealPlanEditActivity.kt:62 | one label per date, each that date's display form |
| MealPlanEdit.MealPlanEditor.GenerateWeekDates | app/src/main/java/com/example/tandoorwidget/MealPlanEditActivity.kt:101-113 | the dialog's dates are the widget's own Saturday-to-Friday window |
| MealPlanEdit.MealPlanEditor.ReadExtras | app/src/main/java/com/example/tandoorwidget/MealPlanEditActivity.kt:38-42 | each intent extra, or its default when missing |
| MealPlanEdit.MealPlanEditor.SetUpSpinners | app/src/main/java/com/example/tandoorwidget/MealPlanEditActivity.kt:56-89 | the spinners list the seven labels, and "None (single day)" before them for the extend spinner; they start on the plan's own start and end dates |
| MealPlanEdit.MealPlanEditor.OnCreate | app/src/main/java/com/example/tandoorwidget/MealPlanEditActivity.kt:33-89 | the extras are read and the spinners are set up |
| MealPlanEdit.MealPlanEditor.Select | app/src/main/java/com/example/tandoorwidget/MealPlanEditActivity.kt:139-140 | the user picks spinner positions, which stay within the lists |
| MealPlanEdit.MealPlanEditor.SaveMealPlanChanges | app/src/main/java/com/example/tandoorwidget/MealPlanEditActivity.kt:128-163 | refused exactly when the URL or token is blank; otherwise refused exactly when the end sorts before the start; otherwise the request carries the stored URL, "Bearer " plus the token, the plan id and the selected dates |
| MealPlanEdit.MealPlanEditor.SaveUntouched | app/src/main/java/com/example/tandoorwidget/MealPlanEditActivity.kt:33-163 | opened on a plan of this week and saved without touching the spinners, the dialog refuses for dates out of order exactly when the plan's own end sorts before its start (with the configuration present), and otherwise sends the plan's own dates |
| Config.NormalizeUrl | app/src/main/java/com/example/tandoorwidget/ConfigActivity.kt:41-48 | the saved URL is the trimmed input, with "/" appended unless it already ends in one; so it is non-empty, ends in "/" and has no whitespace at either end, a blank field gives "/", and an already normal URL is kept |
| Config.NormalizeUrlIdempotent | app/src/main/java/com/example/tandoorwidget/ConfigActivity.kt:41-46 | normalising a saved URL again changes nothing |
| Config.SavedValuesAreNotBlank | app/src/main/java/com/example/tandoorwidget/ConfigActivity.kt:48-59 | what a save stores passes the widget's not-blank test (TandoorWidgetService.kt:92) |
| Config.SavedKeysReadBack | app/src/main/java/com/example/tandoorwidget/ConfigActivity.kt:55-59 | both written values read back, and every other widget's keys keep their values |
| Config.ConfigScreen.constructor | app/src/main/java/com/example/tandoorwidget/ConfigActivity.kt:21-38 | the widget id from the extras; each field is pre-filled with its stored value only for a valid id and a non-empty value |
| Config.ConfigScreen.Edit | app/src/main/java/com/example/tandoorwidget/ConfigActivity.kt:17-18 | the fields hold what the user typed |
| Config.ConfigScreen.OnSaveClicked | app/src/main/java/com/example/tandoorwidget/ConfigActivity.kt:40-59 | saves exactly when the trimmed token is non-empty, and then stores the normalised URL and the trimmed token under this widget's keys; otherwise the file is unchanged |

## Left out

- HTTP, Retrofit and threads. The fetch is a function parameter. The edit
  dialog's asynchronous update callback is not modelled: the progress bar,
  the re-enabled buttons, the result toasts, the widget refresh and
  `finish()` (MealPlanEditActivity.kt:155-158, 165-203). The model stops at
  the request that would be sent.
- Logging and the log/error broadcasts (`sendLogBroadcast`,
  `sendErrorBroadcast`), and the per-meal debug log in `onDataSetChanged`.
  That log is the only caller of `buildRecipeUrl`.
- `RemoteViews` mechanics: view visibility, the layout ids, the fill-in
  intents (only their extras are modelled, as `Card`), `getLoadingView`,
  `getViewTypeCount`, `getItemId` and `hasStableIds`. The URL read in
  `getViewAt` (TandoorWidgetService.kt:240-241) is unused there and is left
  out.
- `TandoorWidgetProvider.kt`, `RecipeActionActivity.kt`, `ApiClient.kt`,
  `Constants.kt` and the layouts are not part of this model. The Retrofit
  data classes are reduced to the fields the core reads (`Models`).
- The bodies of `isMultiDayMeal`, `formatDateRangeSpan`, `mealAppliesToDate`
  and `buildRecipeUrl` are not in `MealPlanUtils.kt` as modelled.
  - The first two are function parameters of the service.
  - `SpansDate` is one span rule that meets the multi-day unit test. The
    service itself buckets only by start date (TandoorWidgetService.kt:156).
- `SimpleDateFormat` internals (leniency, locale, time zone). Parsing and
  display rendering are function parameters. `Format` renders `yyyy-MM-dd`
  for the years 1..9999.
- The clock. `Calendar.getInstance()` is the parameter `today`. Today must
  lie in the years 1583..9998 (`InRange`). From 1583 on, `GregorianCalendar`
  counts Gregorian dates, as the model does; before 1582-10-15 it counts
  Julian ones, which the model does not.
- Week.WeekStart: covers only todays in the years 1583..9998. Before the
  Gregorian switch the source steps back through Julian dates (from
  1582-10-15 it reaches 1582-10-04), and after 9998 the `yyyy` field would
  overflow.
- Week.FindWeekStart: covers only todays in the years 1583..9998, for the
  same Julian-calendar and four-digit-year reasons as `WeekStart`.
- Week.ComputeWeekDates: covers only todays in the years 1583..9998, for the
  same reasons.
- Strings are sequences of Unicode scalar values, not UTF-16 units.
  `Truncate`'s fifteen and `take(5)` count elements.
- Text.LowerChar lowercases ASCII letters only, where Kotlin's
  `lowercase()` maps every cased letter. The sort key is not affected:
  no non-ASCII character lowercases to a letter of "lunch" or "dinner"
  (the Kelvin sign lowers to "k", and "İ" to "i" followed by a combining
  dot).
- WidgetService.RemoteViewsFactory.GetViewAt requires a position inside the
  list; Kotlin would throw `IndexOutOfBoundsException` there.
- MealPlanEdit.MealPlanEditor.SaveMealPlanChanges returns `Sent` for any
  stored URL that is not blank. The source builds the Retrofit client at
  MealPlanEditActivity.kt:161 outside any `try`, and Retrofit throws there
  for a base URL that is not absolute, such as the "/" a blank URL field
  is saved as. The model does not capture that crash.
- MealPlanEdit.MealPlanEditor.SaveMealPlanChanges also requires the state after
  `onCreate` (`Valid`). The spinners' `selectedItemPosition` is always a
  position of their adapters, which `Select` keeps.
- The config screen's text fields start empty; the layout's initial text is
  not modelled. What happens after a save is not modelled: `onUpdate`,
  `setResult` and `finish()`. The validation toast is represented by the
  `false` result.
- The unit tests that the code does not meet are stated as they are and
  left standing. `MealPlanUtilsTest.kt` expects "Untitled" for an empty
  title and the title for an empty recipe name; `DisplayNameExamples` shows
  what the code returns instead. The test of a two-argument
  `getRecipeUrl(recipe, url)` does not match the one-argument function in
  `MealPlanUtils.kt`, which is the one modelled.
