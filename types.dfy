/**
 * The records of the application: a generated recipe, the user's preferences, a logged meal
 * and a planned meal. Numbers the source keeps as JavaScript numbers are integers here; times
 * are millisecond timestamps.
 */
module Types {
  import opened Wrappers

  /** A recipe as the parser produces it. Every numeric field comes from a run of decimal digits. */
  datatype Recipe = Recipe(
    name: string,
    calories: nat,
    protein: nat,
    carbs: nat,
    fat: nat,
    prepTime: nat,
    cookTime: nat,
    ingredients: seq<string>,
    instructions: string,
    whyItWorks: string)

  /** The recipe the parser starts from: every field at its zero or empty value. */
  const EmptyRecipe := Recipe("", 0, 0, 0, 0, 0, 0, [], "", "")

  /** The four primary goals a user can pick. */
  datatype Goal = WeightLoss | MuscleGain | Maintenance | QuickEasy

  /** The goal as it is written in requests and prompts. */
  function GoalName(g: Goal): string {
    match g
    case WeightLoss => "weight-loss"
    case MuscleGain => "muscle-gain"
    case Maintenance => "maintenance"
    case QuickEasy => "quick-easy"
  }

  /** Validated user preferences. */
  datatype UserPreferences = UserPreferences(
    primaryGoal: Goal,
    maxCalories: int,
    minProtein: int,
    prepTime: int,
    dietaryRestrictions: seq<string>,
    allergies: string,
    equipment: seq<string>)

  datatype MealType = Breakfast | Lunch | Dinner | Snack

  function MealTypeName(t: MealType): string {
    match t
    case Breakfast => "breakfast"
    case Lunch => "lunch"
    case Dinner => "dinner"
    case Snack => "snack"
  }

  /** A meal in the log. `loggedAt` is a millisecond timestamp (the source keeps its ISO string). */
  datatype LoggedMeal = LoggedMeal(
    id: string,
    recipe: Recipe,
    loggedAt: int,
    mealType: Option<MealType>)

  /** A meal the user typed in by hand; every number is optional. */
  datatype ManualMeal = ManualMeal(
    name: string,
    calories: Option<int>,
    protein: Option<int>,
    carbs: Option<int>,
    fat: Option<int>,
    notes: Option<string>)

  /**
   * A planned meal. `plannedFor` is a `YYYY-MM-DD` date string; exactly one of `recipe` and
   * `manualMeal` is set by the two ways of planning a meal.
   */
  datatype PlannedMeal = PlannedMeal(
    id: string,
    plannedFor: string,
    mealType: MealType,
    recipe: Option<Recipe>,
    manualMeal: Option<ManualMeal>,
    createdAt: int,
    completed: bool)

  /** The totals over a set of logged meals and the span of their timestamps. */
  datatype NutritionSummary = NutritionSummary(
    totalCalories: int,
    totalProtein: int,
    totalCarbs: int,
    totalFat: int,
    mealCount: nat,
    start: int,
    end: int)

  /** One day of a week plan: that day's open planned meals, one list per meal type. */
  datatype DayPlan = DayPlan(
    date: string,
    breakfast: seq<PlannedMeal>,
    lunch: seq<PlannedMeal>,
    dinner: seq<PlannedMeal>,
    snack: seq<PlannedMeal>)
}
