# Dinner helper: recipe generation, meal log and meal plan

A model, in Dafny, of the behavioural core of a small Next.js dinner-planning app. The app
asks a generative model for a dinner recipe, keeps a log of eaten meals and a plan of meals to
come in the browser's key-value store, and exports the log as CSV. The model covers:

- **The recipe text parser** (`RecipeParser`, with the JavaScript string primitives in `Text`).
  `parseRecipeResponse` fills a `Recipe` field by field from labelled free text. Each regular
  expression is a hand-written matcher (`Pattern`, `MatchAt`, leftmost search `Find`), and the
  method assigns the fields one after another, as the source does.
- **The prompt builder** (`PromptBuilder`). `buildPrompt` grows one string by appends. It ends
  with the response template that the parser reads.
- **The round trip** (`RoundTrip`). A recipe rendered in that response template parses back
  to itself.
- **The generation endpoint** (`GenerateRecipe`). `POST /api/generate-recipe` covers:
  - schema validation;
  - the missing-key check;
  - the nested retry and fallback loop over two models with three attempts each and
    exponential backoff;
  - the mapping of errors to a user message, suggestions and technical details.

  The network is a parameter, `Upstream`, giving the outcome of each attempt: a reply with a
  status and a body, an abort after the timeout, or a thrown error. The method returns the
  sleeps it takes and the attempts it makes, and is proved equal to a functional
  specification, `ExpectedExchange`.
- **The meal log** (`MealLogger`) and **the meal plan** (`MealPlanner`). These are
  read-modify-write operations on a list held by one entry of the key-value store
  (`Storage.Store`, a class whose `items` field the methods reassign), plus the pure queries:
  - date filters and the nutrition summary;
  - grouping by day;
  - the week plan;
  - week arithmetic on day numbers.
- **The CSV export** (`ExportMeals`). This is `mealsToCSV`.

Dates are integers. `LoggedMeal.loggedAt` is a millisecond timestamp, and a meal's day is
`loggedAt / 86400000`, the UTC day that `toISOString().split('T')[0]` names. Week arithmetic
uses day numbers, where day 0 (1 January 1970) is a Thursday. `PlannedMeal.plannedFor` stays
an ISO date string and is compared lexicographically, as the source compares it. Identifiers,
"now", and the locale date and time renderings are parameters.

An HTTP 400 from the upstream is retried. The comment at
`src/app/api/generate-recipe/route.ts` line 118 says a bad request is not retried. But the
`throw` at line 119 sits inside the per-attempt `try` opened at line 68, and that attempt's
`catch` at line 168 retries it like any other error. The model follows the code, and
`GenerateRecipe.BadRequestRetried` states this.

`PlannedMeal`, `ManualMeal` and `DayPlan` are imported by the meal planner from
`src/types/mealLog.ts`, which does not declare them. Their fields are reconstructed from
their use in `src/lib/mealPlanner.ts`.

## Model

| member | source | states |
|---|---|---|
| Text.Trim | src/lib/recipeParser.ts:18 | `trim` leaves a trimmed slice of its input that starts where the leading whitespace ends. The result is empty exactly when the input is all `\s` whitespace, and a trimmed string is its own trim. |
| Text.Split | src/lib/recipeParser.ts:41 | `split('\n')` gives at least one piece, no piece holds the separator, and joining the pieces with the separator gives back the input. |
| Text.SplitJoin | src/lib/exportMeals.ts:57-60 | Splitting a join of separator-free pieces at the separator gives back the pieces. |
| Text.ParseNatToString | src/lib/recipeParser.ts:21 | `parseInt` of the decimal rendering of a natural number is that number. |
| Text.NatToString | src/lib/exportMeals.ts:48-53 | The decimal rendering of a number is a non-empty run of digits with no leading zero. |
| Seqs.Filter | src/lib/mealLogger.ts:43 | `filter` keeps exactly the elements that pass the test and is never longer than its input. |
| Seqs.FilterKeepsLength | src/lib/mealLogger.ts:43-45 | A filter drops nothing exactly when every element passes, which is the "id not found" test of the delete operations. |
| Seqs.FilterConcat | src/lib/mealLogger.ts:63-66 | Filtering commutes with concatenation, so the kept elements keep their order. |
| Storage.Store.Set | src/lib/localStorage.ts:25-37 | A write replaces the stored list and reports `true` when the store accepts writes. Otherwise it leaves the list as it was and reports `false`. |
| RecipeParser.SkipWhitespace | src/lib/recipeParser.ts:17 | `\s*` consumes exactly the maximal run of whitespace from its start. |
| RecipeParser.SkipDigits | src/lib/recipeParser.ts:20 | `\d+` consumes exactly the maximal run of ASCII digits from its start. |
| RecipeParser.LineEnd | src/lib/recipeParser.ts:17 | `.+` stops at the first line terminator. |
| RecipeParser.NewlineRunEnd | src/lib/recipeParser.ts:47 | `\n+` consumes exactly the maximal run of newlines from its start. |
| RecipeParser.FirstLookahead | src/lib/recipeParser.ts:38 | The lazy block ends at the first position where the lookahead holds, and at no earlier one. |
| RecipeParser.LineCapture | src/lib/recipeParser.ts:17 | A line capture is non-empty and holds no line terminator. |
| RecipeParser.MatchAt | src/lib/recipeParser.ts:17-59 | A match at a position needs the label there, matched case-insensitively, and its capture has the pattern's shape. |
| RecipeParser.Find | src/lib/recipeParser.ts:17 | `text.match` returns a capture of the pattern's shape. |
| RecipeParser.FindFromNone | src/lib/recipeParser.ts:17 | With no position matching, the search finds nothing. |
| RecipeParser.FindFromFirst | src/lib/recipeParser.ts:17 | The search returns the match at the leftmost position where the pattern matches. |
| RecipeParser.StripBullet | src/lib/recipeParser.ts:43 | A stripped line is trimmed. A line starting with `-` becomes the trim of the rest after the dash, and any other line is only trimmed. |
| RecipeParser.NonBlank | src/lib/recipeParser.ts:42 | `filter(line => line.trim())` keeps every non-blank line, only lines of the input, and no blank line. |
| RecipeParser.NonBlankIsFilter | src/lib/recipeParser.ts:42 | The non-blank lines are exactly `filter` with the non-blank test. So order and repetitions are kept. |
| RecipeParser.NonBlankLineByLine | src/lib/recipeParser.ts:42 | Filtering goes line by line. The non-blank lines of two blocks placed one after the other are those of the first followed by those of the second. A single line is kept exactly when it is not blank. |
| RecipeParser.StripBullets | src/lib/recipeParser.ts:43 | `map` strips each line in place, keeping the count and the order. |
| RecipeParser.IngredientLines | src/lib/recipeParser.ts:38-44 | The ingredient list has one trimmed entry per non-blank line of the captured block. Entry `k` is the `k`-th non-blank line with its bullet stripped. |
| RecipeParser.IngredientLinesOfLines | src/lib/recipeParser.ts:40-43 | A block made by joining newline-free lines gives, in order, the stripped forms of the non-blank ones among those lines. |
| RecipeParser.IngredientsLineByLine | src/lib/recipeParser.ts:41-43 | Two blocks placed one after the other give the entries of the first followed by those of the second. A single non-blank line gives exactly one entry, its stripped form, and a blank line gives none. |
| RecipeParser.MatchNumber | src/lib/recipeParser.ts:20-21 | A numeric field is overwritten with the parsed digits only when its pattern matches, and otherwise keeps its value. |
| RecipeParser.ParseRecipeResponse | src/lib/recipeParser.ts:3-65 | The parser is total. Each field of the result is that field's extraction from the text. |
| RecipeParser.AbsentLabelNoMatch | src/lib/recipeParser.ts:17-62 | A text without a field's label has no match for that field's pattern. |
| RecipeParser.AbsentNumberLabelKeepsZero | src/lib/recipeParser.ts:4-15 | A number whose label is absent keeps its default 0. |
| RecipeParser.AbsentLabelKeepsEmpty | src/lib/recipeParser.ts:4-15 | Name, ingredients, instructions and rationale keep their defaults (`''`, `[]`) when their label is absent. |
| RecipeParser.NameIsOneTrimmedLine | src/lib/recipeParser.ts:17-18 | The parsed name is trimmed and holds no line terminator. |
| RecipeParser.NameAfterFirstLabel | src/lib/recipeParser.ts:17-18 | After the first `RECIPE NAME:` label and its whitespace, the capture runs from the first non-whitespace character to the end of its line. The name is that capture trimmed. |
| RecipeParser.FindAtFirstLabel | src/lib/recipeParser.ts:17 | Where a pattern matches at the first occurrence of its label, `match` returns that match. |
| RecipeParser.IngredientEntriesTrimmed | src/lib/recipeParser.ts:38-44 | Every parsed ingredient is trimmed. Entry `k` is the `k`-th non-blank line of the captured block with its bullet stripped. |
| RecipeParser.NumberAfterFirstLabel | src/lib/recipeParser.ts:20-36 | A numeric field is the value of the digit run after the first occurrence of its label and optional whitespace. |
| RecipeParser.WhyRunsToEnd | src/lib/recipeParser.ts:59-62 | The rationale capture runs from after a newline to the end of the text. |
| RecipeParser.WhyAfterFirstLabel | src/lib/recipeParser.ts:59-62 | After the first `WHY THIS WORKS:` label, the capture starts after the last newline of the whitespace that follows it and runs to the end of the text. The rationale is that capture trimmed. |
| RecipeParser.InstructionsFallbackUnused | src/lib/recipeParser.ts:47-57 | The fallback instructions pattern matches exactly when the primary one does, so the fallback branch is never taken. Without a match the instructions stay empty. |
| RoundTrip.NameRoundTrip | src/lib/recipeParser.ts:17-18 | The name of a rendered recipe parses back unchanged. |
| RoundTrip.NumberRoundTrip | src/lib/recipeParser.ts:20-36 | Each of the six numbers of a rendered recipe parses back unchanged. |
| RoundTrip.IngredientLinesOfBullets | src/lib/recipeParser.ts:40-43 | A block of `- item` lines gives back the items. |
| RoundTrip.IngredientsRoundTrip | src/lib/recipeParser.ts:38-44 | The ingredients of a rendered recipe parse back unchanged, in order. |
| RoundTrip.InstructionsRoundTrip | src/lib/recipeParser.ts:47-49 | The instructions of a rendered recipe parse back unchanged. They stop before the blank line and the rationale label. |
| RoundTrip.WhyRoundTrip | src/lib/recipeParser.ts:59-62 | The rationale of a rendered recipe parses back unchanged. |
| RoundTrip.RenderedRecipeParsesBack | src/lib/recipeParser.ts:17-62 | A recipe with label-free, trimmed fields, a one-line name and single-line ingredients, rendered in the prompt's response template, parses back to itself. |
| RoundTrip.InstructionsSwallowInlineWhy | src/lib/recipeParser.ts:47-49 | When the rationale label is not preceded by a newline, the instructions run to the end of the text and include it. |
| RoundTrip.FindAtLine | src/lib/recipeParser.ts:17 | When no earlier line holds a pattern's label, the search finds what the pattern matches at the start of that label's line. |
| PromptBuilder.IntToString | src/lib/promptBuilder.ts:8-10 | A number is interpolated as its decimal rendering, with a minus sign when negative. |
| PromptBuilder.TemplateLines | src/lib/promptBuilder.ts:22-33 | The response template has sixteen lines. |
| PromptBuilder.FillTemplateIsJoin | src/lib/promptBuilder.ts:22-33 | The appended template is its lines joined by newlines. |
| PromptBuilder.TemplateListsLabels | src/lib/promptBuilder.ts:23-32 | The template lists the ten labels the parser reads, in order, each at the start of its own line. |
| PromptBuilder.BuildPrompt | src/lib/promptBuilder.ts:3-36 | The string grown by the appends is the prompt of the preferences. |
| PromptBuilder.PromptStartsWithHeader | src/lib/promptBuilder.ts:4 | The prompt starts with the fixed nutritionist-and-chef header. |
| PromptBuilder.PromptEndsWithFormat | src/lib/promptBuilder.ts:22-33 | The prompt ends with the format section: the template and the closing sentence. |
| PromptBuilder.PromptStatesGoals | src/lib/promptBuilder.ts:6-10 | The prompt states the primary goal, the calorie maximum, the protein minimum and the time maximum. |
| PromptBuilder.RestrictionsClauseIff | src/lib/promptBuilder.ts:12-14 | The dietary restrictions clause is present exactly when the list is non-empty, with the entries joined by `", "`. With an empty list the prompt goes straight from the goals to the allergy clause. |
| PromptBuilder.AvoidClauseIff | src/lib/promptBuilder.ts:16-18 | The `AVOID:` clause is present exactly when the allergies string is non-empty. With no allergies the prompt goes straight from the restrictions clause to the equipment line. |
| PromptBuilder.EquipmentAlwaysPresent | src/lib/promptBuilder.ts:20 | The equipment line is always present, even for an empty list. |
| GenerateRecipe.ParseGoal | src/app/api/generate-recipe/route.ts:9 | The goal enum accepts exactly the four goal names, each as its own goal. |
| GenerateRecipe.ParseGoalName | src/app/api/generate-recipe/route.ts:9 | Every goal is accepted under its own name. |
| GenerateRecipe.FieldIssues | src/app/api/generate-recipe/route.ts:9-12 | A field reports at most one issue. The issue describes a broken constraint, and there is none exactly when the field satisfies its constraint. |
| GenerateRecipe.FieldIssuesComplete | src/app/api/generate-recipe/route.ts:9-12 | A broken constraint of a field is the issue its checks report. |
| GenerateRecipe.IssuesOf | src/app/api/generate-recipe/route.ts:8-16 | The issues of the listed fields are all real, and there are none exactly when every listed field is satisfied. |
| GenerateRecipe.IssuesOfComplete | src/app/api/generate-recipe/route.ts:8-16 | Every broken constraint of a listed field is reported. |
| GenerateRecipe.IssuesOfOnePerField | src/app/api/generate-recipe/route.ts:8-16 | Distinct fields report at most one issue each. |
| GenerateRecipe.SchemaFieldsCover | src/app/api/generate-recipe/route.ts:8-16 | The schema accepts a body exactly when its four constrained fields are satisfied, and it lists each of them once. |
| GenerateRecipe.SchemaIssuesComplete | src/app/api/generate-recipe/route.ts:202-213 | Every broken constraint of a body appears among the schema's issues. |
| GenerateRecipe.Validate | src/app/api/generate-recipe/route.ts:8-16 | A body is accepted exactly when every range and enum constraint holds. The optional fields then default to `[]` and `''`. Otherwise it is rejected with a non-empty list of issues: one per broken constraint, all of them, and at most one per field. |
| GenerateRecipe.ResponseText | src/app/api/generate-recipe/route.ts:136-162 | Recipe text is taken only from a 2xx JSON reply whose first candidate has non-empty text. |
| GenerateRecipe.ErrorReply | src/app/api/generate-recipe/route.ts:215-251 | A recognised message gets its fixed user message and three suggestions. Any other message passes through with no suggestions. Technical details are present exactly when the user message differs from the original, and then they are the original. |
| GenerateRecipe.ReportError | src/app/api/generate-recipe/route.ts:215-252 | The step-by-step reassignment of the user message and suggestions builds that 500 response. |
| GenerateRecipe.HighDemandRecognised | src/app/api/generate-recipe/route.ts:222-228 | The loop's high-demand error is classified as high demand whatever its attempt count. |
| GenerateRecipe.TimedOutUnrecognised | src/app/api/generate-recipe/route.ts:229-235 | The timeout error ("timed out") does not contain `timeout` or any other keyword, so it passes through unexplained. |
| GenerateRecipe.NoResponseIsBlocked | src/app/api/generate-recipe/route.ts:236-242 | The empty-candidates error is explained as blocked by the safety filters. |
| GenerateRecipe.ScheduleOrder | src/app/api/generate-recipe/route.ts:66-67 | The schedule is model after model, with attempt indices 0, 1, 2 within each. |
| GenerateRecipe.FirstSuccess | src/app/api/generate-recipe/route.ts:136-166 | The first attempt that yields recipe text, with all earlier attempts failed. |
| GenerateRecipe.FirstSuccessAt | src/app/api/generate-recipe/route.ts:161-166 | An attempt that yields text after only failures is the first success. |
| GenerateRecipe.GenerationSucceeds | src/app/api/generate-recipe/route.ts:161-166 | The first attempt with text returns its parsed recipe, and no attempt follows it. |
| GenerateRecipe.GenerationExhausted | src/app/api/generate-recipe/route.ts:196-197 | When every attempt fails, all six attempts are made and the reported error is the failure of the last attempt of the last model. |
| GenerateRecipe.TryModel | src/app/api/generate-recipe/route.ts:67-193 | The inner loop over one model returns the first success's recipe with the sleeps and attempts so far. Otherwise it returns the error of its last attempt. |
| GenerateRecipe.TryModels | src/app/api/generate-recipe/route.ts:66-197 | The nested loop's response, sleeps and attempts are those of the generation specification. |
| GenerateRecipe.Post | src/app/api/generate-recipe/route.ts:45-253 | The endpoint's response, sleeps and attempts are those of its specification: a 400 for an invalid body, a 500 without a key, otherwise the generation. |
| GenerateRecipe.AttemptsFollowSchedule | src/app/api/generate-recipe/route.ts:66-67 | Between one and six attempts are made, in schedule order. |
| GenerateRecipe.SleepsAreBackoff | src/app/api/generate-recipe/route.ts:108-112 | Each sleep is 1000·2^attempt ms, that is 1000 or 2000. There is one after every failed attempt except a model's last. |
| GenerateRecipe.AllSleeps | src/app/api/generate-recipe/route.ts:122-126 | A run in which every attempt fails sleeps 1000, 2000, 1000, 2000 ms. |
| GenerateRecipe.BackoffSleeps | src/app/api/generate-recipe/route.ts:184-188 | Any run sleeps at most four times, each time 1000 or 2000 ms. |
| GenerateRecipe.BadRequestRetried | src/app/api/generate-recipe/route.ts:117-119 | A 400 reply is not final: when another attempt is scheduled after it, that attempt is made. |
| GenerateRecipe.ExhaustedByTimeout | src/app/api/generate-recipe/route.ts:172-181 | A run ending in a timeout reports the raw timeout text, with no suggestions. |
| GenerateRecipe.ExhaustedByHighDemand | src/app/api/generate-recipe/route.ts:106-116 | A run ending in a 503 or 429 is explained as high demand after three tries. |
| GenerateRecipe.MissingKeyStopsEarly | src/app/api/generate-recipe/route.ts:52-58 | A valid request without an API key gets a 500 before any upstream attempt or sleep. |
| GenerateRecipe.InvalidRequestStopsEarly | src/app/api/generate-recipe/route.ts:202-213 | An invalid request gets a 400 with a non-empty list of issues, with no attempt or sleep. |
| MealLogger.SaveMeal | src/lib/mealLogger.ts:22-36 | The new meal is placed in front of the stored list, which is otherwise unchanged and in order. A refused write leaves the list as it was. |
| MealLogger.DeleteMeal | src/lib/mealLogger.ts:41-51 | An absent id returns false and writes nothing. A present id returns true and, when the store accepts the write, stores the old list minus every entry with that id. |
| MealLogger.DeletionKeepsOthers | src/lib/mealLogger.ts:43 | Deletion keeps exactly the meals with another id, in order. It commutes with concatenation and is the identity when the id is absent. |
| MealLogger.ClearAllMeals | src/lib/mealLogger.ts:164-166 | The empty list is stored, and the result says whether the write was taken. |
| MealLogger.MealsByDateRange | src/lib/mealLogger.ts:56-67 | Without a range every meal is returned. With one, exactly the meals with start ≤ t ≤ end are returned, and nothing is dropped exactly when every meal is in range. |
| MealLogger.MealsByDateRangeConcat | src/lib/mealLogger.ts:63-66 | The range filter keeps the input order. |
| MealLogger.TodaysMeals | src/lib/mealLogger.ts:72-83 | Today's meals are exactly those logged from this midnight through the next midnight, both inclusive. |
| MealLogger.TodaysMealsOverlap | src/lib/mealLogger.ts:76-82 | A meal logged exactly at the next midnight is listed on two consecutive days. |
| MealLogger.MealsOfDayPartition | src/lib/mealLogger.ts:76-82 | With the day's end exclusive, every meal belongs to exactly one day. |
| MealLogger.TotalConcat | src/lib/mealLogger.ts:115-123 | A macro total of a concatenation is the sum of the totals. |
| MealLogger.Earliest | src/lib/mealLogger.ts:126 | The earliest timestamp is at most every meal's, and some meal has it. |
| MealLogger.Latest | src/lib/mealLogger.ts:127 | The latest timestamp is at least every meal's, and some meal has it. |
| MealLogger.EarliestConcat | src/lib/mealLogger.ts:126 | The earliest timestamp of a concatenation is the smaller of the parts' earliest. |
| MealLogger.LatestConcat | src/lib/mealLogger.ts:127 | The latest timestamp of a concatenation is the larger of the parts' latest. |
| MealLogger.NutritionSummaryOf | src/lib/mealLogger.ts:100-140 | The meal count is the list length and start ≤ end. An empty list gives zero totals dated now. Otherwise every meal lies within [start, end] and both bounds are timestamps of meals. |
| MealLogger.SummaryOfOne | src/lib/mealLogger.ts:115-139 | The summary of one meal is its recipe's macros, a count of 1 and its own timestamp at both ends. |
| MealLogger.SummaryOfConcat | src/lib/mealLogger.ts:115-139 | Summaries of concatenated lists add their totals and counts, take the earlier start and take the later end. Together with SummaryOfOne this pins every total to the sum of the recipes' macros. |
| MealLogger.GroupMealsByDate | src/lib/mealLogger.ts:145-159 | Every meal is in exactly the group of its day, in input order. Groups are non-empty, the day list holds each key once, and the group sizes sum to the input length. |
| MealLogger.AddMeal | src/lib/mealLogger.ts:149-155 | One step of the loop keeps the grouping invariant for the meals seen so far. |
| MealPlanner.StrLeTotal | src/lib/mealPlanner.ts:102 | Any two strings are comparable in the order the range query uses. |
| MealPlanner.StrLeReflexive | src/lib/mealPlanner.ts:102 | Every string is at most itself in that order. |
| MealPlanner.StrLeAntisymmetric | src/lib/mealPlanner.ts:102 | Two strings each at most the other are equal. |
| MealPlanner.StrLeTransitive | src/lib/mealPlanner.ts:102 | The string order is transitive. |
| MealPlanner.PlanRecipe | src/lib/mealPlanner.ts:25-45 | The new entry is uncompleted with only its recipe set, and it is appended at the end. Existing entries are unchanged, and a refused write leaves the list as it was. |
| MealPlanner.PlanManualMeal | src/lib/mealPlanner.ts:50-70 | The new entry is uncompleted with only its manual meal set, and it is appended at the end. Existing entries are unchanged. |
| MealPlanner.DeletePlannedMeal | src/lib/mealPlanner.ts:75-85 | An absent id returns false and writes nothing. A present id removes every entry with that id and keeps the order of the rest. |
| MealPlanner.DeletionKeepsOtherPlans | src/lib/mealPlanner.ts:77 | Deletion keeps exactly the plans with another id, in order. |
| MealPlanner.ClearAllPlannedMeals | src/lib/mealPlanner.ts:204-206 | The empty plan is stored, and the result says whether the write was taken. |
| MealPlanner.FirstWithId | src/lib/mealPlanner.ts:165 | `find` gives the first index with the id, and none when the id is absent. |
| MealPlanner.MarkPlannedMealAsCompleted | src/lib/mealPlanner.ts:163-174 | Only the first entry with the id becomes completed and everything else is unchanged. An absent id returns false with no write. |
| MealPlanner.Updated | src/lib/mealPlanner.ts:190-195 | Only a supplied non-empty date and a supplied meal type change, and every other field is kept. |
| MealPlanner.UpdatedWithNothing | src/lib/mealPlanner.ts:190-195 | An update with no non-empty field leaves the entry as it was. |
| MealPlanner.UpdatedIdempotent | src/lib/mealPlanner.ts:190-195 | Applying the same update twice is the same as applying it once. |
| MealPlanner.UpdatePlannedMeal | src/lib/mealPlanner.ts:179-199 | Only the first entry with the id is updated, and everything else is unchanged. An absent id returns false with no write. |
| MealPlanner.PlannedMealsForDate | src/lib/mealPlanner.ts:90-93 | The result is exactly the uncompleted meals planned for the date. |
| MealPlanner.PlannedMealsForRange | src/lib/mealPlanner.ts:98-104 | The result is exactly the uncompleted meals whose date lies between the bounds in string order, both inclusive. |
| MealPlanner.PlannedQueriesConcat | src/lib/mealPlanner.ts:90-104 | Both queries keep storage order. |
| MealPlanner.RangeOfOneDate | src/lib/mealPlanner.ts:98-104 | The range from a date to itself is that date's query. |
| MealPlanner.RangeWidening | src/lib/mealPlanner.ts:98-104 | Widening the bounds loses no meal. |
| MealPlanner.DayPlanOf | src/lib/mealPlanner.ts:117-125 | A day's plan lists each uncompleted meal of that date in exactly the slot of its meal type. |
| MealPlanner.TypeSplitCount | src/lib/mealPlanner.ts:121-124 | The four meal-type filters split a list: their sizes add up to its length. |
| MealPlanner.DayPlanCount | src/lib/mealPlanner.ts:117-125 | The four slots together hold as many meals as the date's query returns. |
| MealPlanner.GetWeekPlan | src/lib/mealPlanner.ts:109-129 | The loop returns seven day plans, the i-th for the i-th day from the week start. |
| MealPlanner.MondayOfWeek | src/lib/mealPlanner.ts:134-139 | The result is a Monday 0 to 6 days on or before the day, and the day itself when it is a Monday. |
| MealPlanner.MondayOfWeekUnique | src/lib/mealPlanner.ts:134-139 | There is only one such Monday. |
| MealPlanner.NextWeekMonday | src/lib/mealPlanner.ts:144-148 | The result is seven days later, on the same weekday. |
| MealPlanner.PreviousWeekMonday | src/lib/mealPlanner.ts:153-157 | The result is seven days earlier, on the same weekday. |
| MealPlanner.WeekStepsInverse | src/lib/mealPlanner.ts:144-157 | Next and previous week are mutual inverses. |
| MealPlanner.MondayOfNextWeek | src/lib/mealPlanner.ts:134-148 | The Monday of a day a week later is the next week's Monday. |
| ExportMeals.NumberCells | src/lib/exportMeals.ts:48-53 | The six numeric cells are digit runs. |
| ExportMeals.NumberCellsDecode | src/lib/exportMeals.ts:48-53 | The numeric cells read back as calories, protein, carbs, fat, prep time and cook time, in that order. |
| ExportMeals.MealTypeCell | src/lib/exportMeals.ts:46 | The meal-type cell is `Not specified` exactly when the meal has no meal type. |
| ExportMeals.Cells | src/lib/exportMeals.ts:42-54 | A meal has ten cells: date, time, meal type, recipe name, then the six numbers. |
| ExportMeals.Quote | src/lib/exportMeals.ts:59 | A cell is wrapped in double quotes, and its own characters, quotes included, are kept unescaped. |
| ExportMeals.QuoteAll | src/lib/exportMeals.ts:59 | Every cell is quoted, in order. |
| ExportMeals.Rows | src/lib/exportMeals.ts:41-55 | There is one line per meal, in input order. |
| ExportMeals.MealsToCSV | src/lib/exportMeals.ts:23-63 | No meals give exactly `No meals to export`. Otherwise the export starts with the first header, so it is never that message. |
| ExportMeals.Lines | src/lib/exportMeals.ts:57-60 | The header line, the ten headers joined by commas, comes first, followed by the meal lines in order. |
| ExportMeals.RowSplits | src/lib/exportMeals.ts:59 | A meal line with comma-free free text splits at commas back into its ten quoted cells. |
| ExportMeals.CSVLines | src/lib/exportMeals.ts:57-60 | An export whose free text holds no newline or comma splits at newlines back into the header line and one line per meal. |

## Left out

- Network I/O is not modelled: `fetch`, the `AbortController` timeout, `setTimeout` sleeps, `request.json()` and `NextResponse`. The upstream is a parameter, and sleeps are returned as a list of durations.
- Console logging is not modelled.
- Zod is modelled only as its range and enum predicate. The text of its messages and the checks of the field types are not modelled; the body is assumed to have the declared field types, and a body that is not JSON is a separate case.
- Number fields are integers. Fractional numbers, NaN and `Math.round` are not modelled, and the nutrition totals are exact integer sums.
- Identifier generation (`Date.now()`, `Math.random()`) and "now" are parameters.
- JavaScript `Date` behaviour is not modelled: time zones, daylight saving time, `setHours`, `setDate` and `toLocaleDateString`/`toLocaleTimeString`. Timestamps and day numbers are integers. The locale renderings are function parameters, and `getWeekPlan`'s date strings come from a parameter `isoDate`.
- MealLogger.TodaysMeals: takes the day as [midnight, midnight + 86400000]. On a day with a daylight-saving change, `setDate(+1)` gives a different length.
- MealPlanner.MondayOfWeek: works on day numbers. The source keeps the time of day of its `Date`, which the model drops.
- MealPlanner.StrLe: compares Unicode scalar values, while JavaScript compares UTF-16 code units. The two orders agree on the Basic Multilingual Plane, which covers ISO dates.
- `getRecentMeals` is not modelled: it is `getMealsByDateRange` with a range computed from the clock.
- `getFromStorage`'s fallbacks are not modelled (no `window`, a missing key, a JSON parse error): reads always see the stored list. A write the store refuses is modelled.
- `exportAsJSON` and `exportAsCSV` are not modelled: they are Blob and DOM download plumbing.
- `getWeekRangeString` is not modelled: it is display formatting.
- Concurrent read-modify-write from several tabs is not modelled.
- ExportMeals.CSVLines: proved only for meals whose date, time and name hold no comma or newline. Cells are written unescaped, so other text does not split back.
- RoundTrip.RenderedRecipeParsesBack: assumes at least one ingredient, a non-empty one-line name, non-empty instructions and no label inside any field. These are the conditions under which the template can be read back.
- Text.ParseNatToString, Text.NatToString, ExportMeals.NumberCells, RoundTrip.NumberRoundTrip: numbers are unbounded integers and these are exact. JavaScript numbers are doubles. `parseInt` of a digit run is exact only below 2^53, and `${n}` uses exponent form from 1e21, so the source agrees with the model only below 2^53.
- GenerateRecipe.TryModel: the inner `for` loop over attempts is its own method called from the outer loop, `TryModels`. Its `continue`/`break` become the loop's exit conditions.

## Findings

| source | as written | input that shows it | evidently intended | confidence | as-written member | corrected member |
|---|---|---|---|---|---|---|
| src/lib/mealLogger.ts:76-82 | `getTodaysMeals` passes tomorrow's midnight as an inclusive end to `getMealsByDateRange` | a meal logged exactly at the next local midnight is in today's and tomorrow's lists | the day as a half-open interval [midnight, next midnight) | low; not executed | MealLogger.TodaysMealsOverlap | MealLogger.MealsOfDayPartition |
