/**
 * The meal plan (src/lib/mealPlanner.ts): planned meals kept in one storage entry in the order
 * they were planned, the per-day and per-week views of them, and the Monday-based week
 * navigation. Planned dates are `YYYY-MM-DD` strings compared as strings; calendar days in the
 * week arithmetic are local day numbers (day 0 is Thursday 1 January 1970).
 */
module MealPlanner {
  import opened Wrappers
  import opened Types
  import opened Seqs
  import opened Storage

  predicate HasPlannedId(meals: seq<PlannedMeal>, id: string) {
    exists m :: m in meals && m.id == id
  }

  /** The test `deletePlannedMeal` filters with. */
  function PlannedIdIsNot(id: string): PlannedMeal -> bool {
    (m: PlannedMeal) => m.id != id
  }

  // ---------------------------------------------------------------- string order

  /** JavaScript's `a <= b` on strings: code-unit-wise lexicographic order. */
  predicate StrLe(a: string, b: string) {
    if a == [] then true
    else if b == [] then false
    else if a[0] == b[0] then StrLe(a[1..], b[1..])
    else a[0] < b[0]
  }

  lemma {:induction false} StrLeReflexive(a: string)
    ensures StrLe(a, a)
  {
    if a != [] {
      StrLeReflexive(a[1..]);
    }
  }

  lemma {:induction false} StrLeAntisymmetric(a: string, b: string)
    requires StrLe(a, b) && StrLe(b, a)
    ensures a == b
  {
    if a != [] && b != [] {
      StrLeAntisymmetric(a[1..], b[1..]);
      assert a == [a[0]] + a[1..] && b == [b[0]] + b[1..];
    }
  }

  lemma {:induction false} StrLeTransitive(a: string, b: string, c: string)
    requires StrLe(a, b) && StrLe(b, c)
    ensures StrLe(a, c)
  {
    if a != [] && b != [] && c != [] && a[0] == b[0] && b[0] == c[0] {
      StrLeTransitive(a[1..], b[1..], c[1..]);
    }
  }

  lemma {:induction false} StrLeTotal(a: string, b: string)
    ensures StrLe(a, b) || StrLe(b, a)
  {
    if a != [] && b != [] && a[0] == b[0] {
      StrLeTotal(a[1..], b[1..]);
    }
  }

  // ---------------------------------------------------------------- changing the plan

  /** `planRecipe`: appends an open planned meal holding the recipe and writes the list back. */
  method PlanRecipe(plan: Store<PlannedMeal>, id: string, now: int, recipe: Recipe, plannedFor: string, mealType: MealType)
    returns (planned: PlannedMeal)
    modifies plan
    ensures planned == PlannedMeal(id, plannedFor, mealType, Some(recipe), None, now, false)
    ensures plan.items == (if plan.writable then old(plan.items) + [planned] else old(plan.items))
    ensures plan.writes == old(plan.writes) + 1
  {
    var meals := plan.items;
    planned := PlannedMeal(id, plannedFor, mealType, Some(recipe), None, now, false);
    meals := meals + [planned];
    var _ := plan.Set(meals);
  }

  /** `planManualMeal`: appends an open planned meal holding the hand-entered meal. */
  method PlanManualMeal(plan: Store<PlannedMeal>, id: string, now: int, manualMeal: ManualMeal, plannedFor: string, mealType: MealType)
    returns (planned: PlannedMeal)
    modifies plan
    ensures planned == PlannedMeal(id, plannedFor, mealType, None, Some(manualMeal), now, false)
    ensures plan.items == (if plan.writable then old(plan.items) + [planned] else old(plan.items))
    ensures plan.writes == old(plan.writes) + 1
  {
    var meals := plan.items;
    planned := PlannedMeal(id, plannedFor, mealType, None, Some(manualMeal), now, false);
    meals := meals + [planned];
    var _ := plan.Set(meals);
  }

  /**
   * `deletePlannedMeal`: drops every planned meal with the id. When none has it, the result
   * is false and nothing is written.
   */
  method DeletePlannedMeal(plan: Store<PlannedMeal>, id: string) returns (deleted: bool)
    modifies plan
    ensures deleted <==> HasPlannedId(old(plan.items), id)
    ensures !deleted ==> plan.items == old(plan.items) && plan.writes == old(plan.writes)
    ensures deleted ==> plan.writes == old(plan.writes) + 1
    ensures deleted ==> plan.items == (if plan.writable then Filter(old(plan.items), PlannedIdIsNot(id)) else old(plan.items))
  {
    var meals := plan.items;
    var filtered := Filter(meals, PlannedIdIsNot(id));
    FilterKeepsLength(meals, PlannedIdIsNot(id));
    if |filtered| == |meals| {
      assert forall m :: m in meals ==> PlannedIdIsNot(id)(m);
      return false;
    }
    var _ := plan.Set(filtered);
    return true;
  }

  /** `clearAllPlannedMeals`: writes the empty list and reports whether the store took it. */
  method ClearAllPlannedMeals(plan: Store<PlannedMeal>) returns (ok: bool)
    modifies plan
    ensures ok == plan.writable
    ensures plan.items == (if plan.writable then [] else old(plan.items))
    ensures plan.writes == old(plan.writes) + 1
  {
    ok := plan.Set([]);
  }

  /** What a deletion keeps: exactly the planned meals with another id, in their order. */
  lemma DeletionKeepsOtherPlans(a: seq<PlannedMeal>, b: seq<PlannedMeal>, id: string)
    ensures forall m :: m in Filter(a, PlannedIdIsNot(id)) <==> m in a && m.id != id
    ensures Filter(a + b, PlannedIdIsNot(id)) == Filter(a, PlannedIdIsNot(id)) + Filter(b, PlannedIdIsNot(id))
  {
    FilterConcat(a, b, PlannedIdIsNot(id));
  }

  /** `meals.find(m => m.id === id)`, as the index of the first planned meal with the id. */
  function FirstWithId(meals: seq<PlannedMeal>, id: string): (k: Option<nat>)
    ensures k.Some? ==> k.value < |meals| && meals[k.value].id == id
    ensures k.Some? ==> forall j :: 0 <= j < k.value ==> meals[j].id != id
    ensures k.None? <==> !HasPlannedId(meals, id)
  {
    if meals == [] then None
    else if meals[0].id == id then Some(0)
    else
      assert forall m :: m in meals ==> m == meals[0] || m in meals[1..];
      match FirstWithId(meals[1..], id)
      case None => None
      case Some(k) => Some(k + 1)
  }

  /** `markPlannedMealAsCompleted`: the first planned meal with the id becomes completed. */
  method MarkPlannedMealAsCompleted(plan: Store<PlannedMeal>, id: string) returns (found: bool)
    modifies plan
    ensures found <==> HasPlannedId(old(plan.items), id)
    ensures !found ==> plan.items == old(plan.items) && plan.writes == old(plan.writes)
    ensures found ==> plan.writes == old(plan.writes) + 1
    ensures found ==> var k := FirstWithId(old(plan.items), id).value;
      plan.items == (if plan.writable then old(plan.items)[k := old(plan.items)[k].(completed := true)] else old(plan.items))
  {
    var meals := plan.items;
    var index := FirstWithId(meals, id);
    if index.None? {
      return false;
    }
    var k := index.value;
    var meal := meals[k];
    meal := meal.(completed := true);
    meals := meals[k := meal];
    var _ := plan.Set(meals);
    return true;
  }

  /**
   * The planned meal after `updatePlannedMeal`'s changes: a new date when one is given and is
   * not empty, a new meal type when one is given; nothing else changes.
   */
  function Updated(m: PlannedMeal, plannedFor: Option<string>, mealType: Option<MealType>): (u: PlannedMeal)
    ensures u.id == m.id && u.recipe == m.recipe && u.manualMeal == m.manualMeal
    ensures u.createdAt == m.createdAt && u.completed == m.completed
    ensures u.plannedFor == (if plannedFor.Some? && plannedFor.value != "" then plannedFor.value else m.plannedFor)
    ensures u.mealType == (if mealType.Some? then mealType.value else m.mealType)
  {
    var dated := if plannedFor.Some? && plannedFor.value != "" then m.(plannedFor := plannedFor.value) else m;
    if mealType.Some? then dated.(mealType := mealType.value) else dated
  }

  /** An update with nothing to change, or an empty date only, leaves the meal as it was. */
  lemma UpdatedWithNothing(m: PlannedMeal, plannedFor: Option<string>)
    requires plannedFor.None? || plannedFor.value == ""
    ensures Updated(m, plannedFor, None) == m
  {
  }

  /** Applying the same update twice changes nothing more. */
  lemma UpdatedIdempotent(m: PlannedMeal, plannedFor: Option<string>, mealType: Option<MealType>)
    ensures Updated(Updated(m, plannedFor, mealType), plannedFor, mealType) == Updated(m, plannedFor, mealType)
  {
  }

  /** `updatePlannedMeal`: changes the first planned meal with the id, then writes the list back. */
  method UpdatePlannedMeal(plan: Store<PlannedMeal>, id: string, plannedFor: Option<string>, mealType: Option<MealType>)
    returns (found: bool)
    modifies plan
    ensures found <==> HasPlannedId(old(plan.items), id)
    ensures !found ==> plan.items == old(plan.items) && plan.writes == old(plan.writes)
    ensures found ==> plan.writes == old(plan.writes) + 1
    ensures found ==> var k := FirstWithId(old(plan.items), id).value;
      plan.items == (if plan.writable then old(plan.items)[k := Updated(old(plan.items)[k], plannedFor, mealType)] else old(plan.items))
  {
    var meals := plan.items;
    var index := FirstWithId(meals, id);
    if index.None? {
      return false;
    }
    var k := index.value;
    var meal := meals[k];
    if plannedFor.Some? && plannedFor.value != "" {
      meal := meal.(plannedFor := plannedFor.value);
    }
    if mealType.Some? {
      meal := meal.(mealType := mealType.value);
    }
    meals := meals[k := meal];
    var _ := plan.Set(meals);
    return true;
  }

  // ---------------------------------------------------------------- queries

  /** The test `getPlannedMealsForDate` filters with. */
  function OpenOn(date: string): PlannedMeal -> bool {
    (m: PlannedMeal) => m.plannedFor == date && !m.completed
  }

  /** The test `getPlannedMealsForRange` filters with. */
  function OpenWithin(start: string, end: string): PlannedMeal -> bool {
    (m: PlannedMeal) => StrLe(start, m.plannedFor) && StrLe(m.plannedFor, end) && !m.completed
  }

  /** `getPlannedMealsForDate` over the stored list: the open meals planned for `date`. */
  function PlannedMealsForDate(meals: seq<PlannedMeal>, date: string): (r: seq<PlannedMeal>)
    ensures forall m :: m in r <==> m in meals && m.plannedFor == date && !m.completed
  {
    Filter(meals, OpenOn(date))
  }

  /** `getPlannedMealsForRange`: the open meals whose date lies between the bounds, both included. */
  function PlannedMealsForRange(meals: seq<PlannedMeal>, start: string, end: string): (r: seq<PlannedMeal>)
    ensures forall m :: m in r <==> m in meals && StrLe(start, m.plannedFor) && StrLe(m.plannedFor, end) && !m.completed
  {
    Filter(meals, OpenWithin(start, end))
  }

  /** Both queries keep the stored order: they distribute over concatenation. */
  lemma PlannedQueriesConcat(a: seq<PlannedMeal>, b: seq<PlannedMeal>, date: string, start: string, end: string)
    ensures PlannedMealsForDate(a + b, date) == PlannedMealsForDate(a, date) + PlannedMealsForDate(b, date)
    ensures PlannedMealsForRange(a + b, start, end) == PlannedMealsForRange(a, start, end) + PlannedMealsForRange(b, start, end)
  {
    FilterConcat(a, b, OpenOn(date));
    FilterConcat(a, b, OpenWithin(start, end));
  }

  /** The range from a date to itself is that date. */
  lemma RangeOfOneDate(meals: seq<PlannedMeal>, date: string)
    ensures PlannedMealsForRange(meals, date, date) == PlannedMealsForDate(meals, date)
  {
    forall m | m in meals
      ensures OpenWithin(date, date)(m) == OpenOn(date)(m)
    {
      if StrLe(date, m.plannedFor) && StrLe(m.plannedFor, date) {
        StrLeAntisymmetric(date, m.plannedFor);
      }
      if m.plannedFor == date {
        StrLeReflexive(date);
      }
    }
    FilterAgree(meals, OpenWithin(date, date), OpenOn(date));
  }

  /** A wider range keeps every meal of a narrower one. */
  lemma RangeWidening(meals: seq<PlannedMeal>, start: string, end: string, start': string, end': string, m: PlannedMeal)
    requires StrLe(start', start) && StrLe(end, end')
    requires m in PlannedMealsForRange(meals, start, end)
    ensures m in PlannedMealsForRange(meals, start', end')
  {
    StrLeTransitive(start', start, m.plannedFor);
    StrLeTransitive(m.plannedFor, end, end');
  }

  // ---------------------------------------------------------------- the week plan

  /** The test that picks out one meal type. */
  function OfType(t: MealType): PlannedMeal -> bool {
    (m: PlannedMeal) => m.mealType == t
  }

  /** The list of a day plan for one meal type. */
  function Slot(day: DayPlan, t: MealType): seq<PlannedMeal> {
    match t
    case Breakfast => day.breakfast
    case Lunch => day.lunch
    case Dinner => day.dinner
    case Snack => day.snack
  }

  /** One day of `getWeekPlan`: that date's open meals, split by meal type. */
  function DayPlanOf(meals: seq<PlannedMeal>, date: string): (day: DayPlan)
    ensures day.date == date
    ensures forall t, m :: m in Slot(day, t) <==> m in meals && m.plannedFor == date && !m.completed && m.mealType == t
  {
    var open := PlannedMealsForDate(meals, date);
    DayPlan(date, Filter(open, OfType(Breakfast)), Filter(open, OfType(Lunch)),
      Filter(open, OfType(Dinner)), Filter(open, OfType(Snack)))
  }

  /** Splitting by meal type loses and duplicates nothing: the four lists add up to the list. */
  lemma {:induction false} TypeSplitCount(s: seq<PlannedMeal>)
    ensures |Filter(s, OfType(Breakfast))| + |Filter(s, OfType(Lunch))| + |Filter(s, OfType(Dinner))|
      + |Filter(s, OfType(Snack))| == |s|
  {
    if s != [] {
      TypeSplitCount(s[1..]);
    }
  }

  /** A day plan holds each open meal of its date exactly once. */
  lemma DayPlanCount(meals: seq<PlannedMeal>, date: string)
    ensures var day := DayPlanOf(meals, date);
      |day.breakfast| + |day.lunch| + |day.dinner| + |day.snack| == |PlannedMealsForDate(meals, date)|
  {
    TypeSplitCount(PlannedMealsForDate(meals, date));
  }

  /**
   * `getWeekPlan`: seven day plans from `weekStart` on; `isoDate` gives the `YYYY-MM-DD`
   * string of a day number.
   */
  method GetWeekPlan(plan: Store<PlannedMeal>, weekStart: int, isoDate: int -> string) returns (week: seq<DayPlan>)
    ensures |week| == 7
    ensures forall i :: 0 <= i < 7 ==> week[i] == DayPlanOf(plan.items, isoDate(weekStart + i))
  {
    week := [];
    var i := 0;
    while i < 7
      invariant 0 <= i <= 7 && |week| == i
      invariant forall j :: 0 <= j < i ==> week[j] == DayPlanOf(plan.items, isoDate(weekStart + j))
    {
      var dateStr := isoDate(weekStart + i);
      var dayMeals := PlannedMealsForDate(plan.items, dateStr);
      week := week + [DayPlan(dateStr, Filter(dayMeals, OfType(Breakfast)), Filter(dayMeals, OfType(Lunch)),
        Filter(dayMeals, OfType(Dinner)), Filter(dayMeals, OfType(Snack)))];
      i := i + 1;
    }
  }

  // ---------------------------------------------------------------- week navigation

  /** `getDay()` of a day number: 0 for Sunday up to 6 for Saturday. */
  function Weekday(day: int): int {
    (day + 4) % 7
  }

  /** `getMondayOfWeek`: the Monday on or before the day (six days back from a Sunday). */
  function MondayOfWeek(day: int): (monday: int)
    ensures Weekday(monday) == 1
    ensures day - 6 <= monday <= day
    ensures Weekday(day) == 1 ==> monday == day
  {
    var w := Weekday(day);
    day - w + (if w == 0 then -6 else 1)
  }

  /** That Monday is the only Monday among the day and the six days before it. */
  lemma MondayOfWeekUnique(day: int, monday: int)
    requires Weekday(monday) == 1 && day - 6 <= monday <= day
    ensures monday == MondayOfWeek(day)
  {
    var other := MondayOfWeek(day);
    assert (monday - other) % 7 == 0;
  }

  /** `getNextWeekMonday`. */
  function NextWeekMonday(monday: int): (next: int)
    ensures Weekday(next) == Weekday(monday) && next - monday == 7
  {
    monday + 7
  }

  /** `getPreviousWeekMonday`. */
  function PreviousWeekMonday(monday: int): (previous: int)
    ensures Weekday(previous) == Weekday(monday) && monday - previous == 7
  {
    monday - 7
  }

  /** Stepping a week forward and back returns to the same Monday, in either order. */
  lemma WeekStepsInverse(monday: int)
    ensures PreviousWeekMonday(NextWeekMonday(monday)) == monday
    ensures NextWeekMonday(PreviousWeekMonday(monday)) == monday
  {
  }

  /** The Monday of the week seven days later is the next week's Monday. */
  lemma MondayOfNextWeek(day: int)
    ensures MondayOfWeek(day + 7) == NextWeekMonday(MondayOfWeek(day))
  {
    MondayOfWeekUnique(day + 7, NextWeekMonday(MondayOfWeek(day)));
  }
}
