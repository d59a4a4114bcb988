/**
 * The meal log (src/lib/mealLogger.ts): a list of logged meals kept in one storage entry,
 * most recent first, with the queries the dashboard and the history page run over it.
 * Times are millisecond timestamps; the calendar day of a meal is its UTC day number.
 */
module MealLogger {
  import opened Wrappers
  import opened Types
  import opened Seqs
  import opened Storage

  /** Milliseconds in a day. */
  const MsPerDay := 86400000

  /** A time window; both ends belong to it. */
  datatype DateRange = DateRange(start: int, end: int)

  predicate Within(t: int, range: DateRange) {
    range.start <= t <= range.end
  }

  /** The test `deleteMeal` filters with. */
  function IdIsNot(id: string): LoggedMeal -> bool {
    (m: LoggedMeal) => m.id != id
  }

  /** The test `getMealsByDateRange` filters with. */
  function LoggedWithin(range: DateRange): LoggedMeal -> bool {
    (m: LoggedMeal) => Within(m.loggedAt, range)
  }

  predicate HasId(meals: seq<LoggedMeal>, id: string) {
    exists m :: m in meals && m.id == id
  }

  // ---------------------------------------------------------------- changing the log

  /** `saveMeal`: the new meal goes in front of the stored list, which is written back. */
  method SaveMeal(log: Store<LoggedMeal>, id: string, now: int, recipe: Recipe, mealType: Option<MealType>)
    returns (meal: LoggedMeal)
    modifies log
    ensures meal == LoggedMeal(id, recipe, now, mealType)
    ensures log.items == (if log.writable then [meal] + old(log.items) else old(log.items))
    ensures log.writes == old(log.writes) + 1
  {
    var meals := log.items;
    meal := LoggedMeal(id, recipe, now, mealType);
    meals := [meal] + meals;
    var _ := log.Set(meals);
  }

  /**
   * `deleteMeal`: drops every meal with the id. When none has it, the result is false and
   * nothing is written.
   */
  method DeleteMeal(log: Store<LoggedMeal>, id: string) returns (deleted: bool)
    modifies log
    ensures deleted <==> HasId(old(log.items), id)
    ensures !deleted ==> log.items == old(log.items) && log.writes == old(log.writes)
    ensures deleted ==> log.writes == old(log.writes) + 1
    ensures deleted ==> log.items == (if log.writable then Filter(old(log.items), IdIsNot(id)) else old(log.items))
  {
    var meals := log.items;
    var filtered := Filter(meals, IdIsNot(id));
    FilterKeepsLength(meals, IdIsNot(id));
    if |filtered| == |meals| {
      assert forall m :: m in meals ==> IdIsNot(id)(m);
      return false;
    }
    var _ := log.Set(filtered);
    return true;
  }

  /** `clearAllMeals`: writes the empty list and reports whether the store took it. */
  method ClearAllMeals(log: Store<LoggedMeal>) returns (ok: bool)
    modifies log
    ensures ok == log.writable
    ensures log.items == (if log.writable then [] else old(log.items))
    ensures log.writes == old(log.writes) + 1
  {
    ok := log.Set([]);
  }

  /** What is left after a deletion: exactly the meals with another id, in their order. */
  lemma {:induction false} DeletionKeepsOthers(a: seq<LoggedMeal>, b: seq<LoggedMeal>, id: string)
    ensures forall m :: m in Filter(a, IdIsNot(id)) <==> m in a && m.id != id
    ensures Filter(a + b, IdIsNot(id)) == Filter(a, IdIsNot(id)) + Filter(b, IdIsNot(id))
    ensures !HasId(a, id) ==> Filter(a, IdIsNot(id)) == a
  {
    FilterConcat(a, b, IdIsNot(id));
    if !HasId(a, id) {
      FilterAll(a, IdIsNot(id));
    }
  }

  // ---------------------------------------------------------------- queries

  /**
   * `getMealsByDateRange` over the stored list `meals`: everything without a range, otherwise
   * the meals logged inside it, ends included.
   */
  function MealsByDateRange(meals: seq<LoggedMeal>, range: Option<DateRange>): (r: seq<LoggedMeal>)
    ensures range.None? ==> r == meals
    ensures range.Some? ==> forall m :: m in r <==> m in meals && Within(m.loggedAt, range.value)
    ensures |r| == |meals| <==> forall m :: m in meals ==> range.None? || Within(m.loggedAt, range.value)
  {
    match range
    case None => meals
    case Some(window) =>
      FilterKeepsLength(meals, LoggedWithin(window));
      Filter(meals, LoggedWithin(window))
  }

  /** The range query keeps the stored order: it distributes over concatenation. */
  lemma MealsByDateRangeConcat(a: seq<LoggedMeal>, b: seq<LoggedMeal>, range: Option<DateRange>)
    ensures MealsByDateRange(a + b, range) == MealsByDateRange(a, range) + MealsByDateRange(b, range)
  {
    if range.Some? {
      FilterConcat(a, b, LoggedWithin(range.value));
    }
  }

  /**
   * `getTodaysMeals`, with `midnight` the start of the current local day: the meals from that
   * midnight up to and including the next one.
   */
  function TodaysMeals(meals: seq<LoggedMeal>, midnight: int): (r: seq<LoggedMeal>)
    ensures forall m :: m in r <==> m in meals && midnight <= m.loggedAt <= midnight + MsPerDay
  {
    MealsByDateRange(meals, Some(DateRange(midnight, midnight + MsPerDay)))
  }

  /** Because the end is included, a meal logged exactly at midnight belongs to two days. */
  lemma TodaysMealsOverlap(meals: seq<LoggedMeal>, midnight: int, m: LoggedMeal)
    requires m in meals && m.loggedAt == midnight + MsPerDay
    ensures m in TodaysMeals(meals, midnight) && m in TodaysMeals(meals, midnight + MsPerDay)
  {
  }

  /** A day with its end left out: the window `[midnight, midnight + MsPerDay)`. */
  function MealsOfDay(meals: seq<LoggedMeal>, midnight: int): (r: seq<LoggedMeal>)
    ensures forall m :: m in r <==> m in meals && midnight <= m.loggedAt < midnight + MsPerDay
  {
    MealsByDateRange(meals, Some(DateRange(midnight, midnight + MsPerDay - 1)))
  }

  /** With the end left out, every meal falls on exactly one of the consecutive days. */
  lemma MealsOfDayPartition(meals: seq<LoggedMeal>, midnight: int, m: LoggedMeal, k: int)
    requires m in meals
    ensures m in MealsOfDay(meals, midnight + k * MsPerDay) <==> k == (m.loggedAt - midnight) / MsPerDay
  {
    var t := m.loggedAt - midnight;
    var q := t / MsPerDay;
    assert q * MsPerDay <= t < q * MsPerDay + MsPerDay;
    if k < q {
      assert k * MsPerDay + MsPerDay <= q * MsPerDay;
    } else if k > q {
      assert q * MsPerDay + MsPerDay <= k * MsPerDay;
    }
  }

  // ---------------------------------------------------------------- the nutrition summary

  datatype Macro = Calories | Protein | Carbs | Fat

  function Amount(r: Recipe, macro: Macro): nat {
    match macro
    case Calories => r.calories
    case Protein => r.protein
    case Carbs => r.carbs
    case Fat => r.fat
  }

  /** The `reduce` that sums one macro over the meals. */
  function Total(meals: seq<LoggedMeal>, macro: Macro): nat {
    if meals == [] then 0 else Amount(meals[0].recipe, macro) + Total(meals[1..], macro)
  }

  /** Totals add up over a concatenation. */
  lemma {:induction false} TotalConcat(a: seq<LoggedMeal>, b: seq<LoggedMeal>, macro: Macro)
    ensures Total(a + b, macro) == Total(a, macro) + Total(b, macro)
  {
    if a != [] {
      assert (a + b)[1..] == a[1..] + b;
      TotalConcat(a[1..], b, macro);
    } else {
      assert a + b == b;
    }
  }

  /** `Math.min(...)` over the timestamps: the earliest one. */
  function Earliest(meals: seq<LoggedMeal>): (t: int)
    requires meals != []
    ensures forall m :: m in meals ==> t <= m.loggedAt
    ensures exists m :: m in meals && m.loggedAt == t
  {
    if |meals| == 1 then meals[0].loggedAt
    else
      var rest := Earliest(meals[1..]);
      assert forall m :: m in meals ==> m == meals[0] || m in meals[1..];
      if meals[0].loggedAt <= rest then meals[0].loggedAt else rest
  }

  /** `Math.max(...)` over the timestamps: the latest one. */
  function Latest(meals: seq<LoggedMeal>): (t: int)
    requires meals != []
    ensures forall m :: m in meals ==> m.loggedAt <= t
    ensures exists m :: m in meals && m.loggedAt == t
  {
    if |meals| == 1 then meals[0].loggedAt
    else
      var rest := Latest(meals[1..]);
      assert forall m :: m in meals ==> m == meals[0] || m in meals[1..];
      if rest <= meals[0].loggedAt then meals[0].loggedAt else rest
  }

  /**
   * `getNutritionSummary`: for no meals, zero totals and the current time `now` as both ends of
   * the range; otherwise the macro totals, the number of meals and the span of their timestamps.
   * `Math.round` leaves the integer sums unchanged.
   */
  function NutritionSummaryOf(meals: seq<LoggedMeal>, now: int): (s: NutritionSummary)
    ensures s.mealCount == |meals| && s.start <= s.end
    ensures meals == [] ==> s == NutritionSummary(0, 0, 0, 0, 0, now, now)
    ensures meals != [] ==> forall m :: m in meals ==> s.start <= m.loggedAt <= s.end
    ensures meals != [] ==> exists m :: m in meals && m.loggedAt == s.start
    ensures meals != [] ==> exists m :: m in meals && m.loggedAt == s.end
  {
    if meals == [] then NutritionSummary(0, 0, 0, 0, 0, now, now)
    else
      var first := meals[0];
      assert Earliest(meals) <= first.loggedAt <= Latest(meals);
      NutritionSummary(
        Total(meals, Calories), Total(meals, Protein), Total(meals, Carbs), Total(meals, Fat),
        |meals|, Earliest(meals), Latest(meals))
  }

  /** The summary of one meal is that meal's recipe and time. */
  lemma SummaryOfOne(m: LoggedMeal, now: int)
    ensures NutritionSummaryOf([m], now) ==
      NutritionSummary(m.recipe.calories, m.recipe.protein, m.recipe.carbs, m.recipe.fat, 1, m.loggedAt, m.loggedAt)
  {
    assert [m][1..] == [];
    assert Total([m], Calories) == m.recipe.calories;
    assert Total([m], Protein) == m.recipe.protein;
    assert Total([m], Carbs) == m.recipe.carbs;
    assert Total([m], Fat) == m.recipe.fat;
  }

  /**
   * Summaries compose: the summary of two non-empty lists together adds their totals and
   * counts and spans from the earlier start to the later end.
   */
  lemma SummaryOfConcat(a: seq<LoggedMeal>, b: seq<LoggedMeal>, now: int)
    requires a != [] && b != []
    ensures var s, sa, sb := NutritionSummaryOf(a + b, now), NutritionSummaryOf(a, now), NutritionSummaryOf(b, now);
      && s.totalCalories == sa.totalCalories + sb.totalCalories
      && s.totalProtein == sa.totalProtein + sb.totalProtein
      && s.totalCarbs == sa.totalCarbs + sb.totalCarbs
      && s.totalFat == sa.totalFat + sb.totalFat
      && s.mealCount == sa.mealCount + sb.mealCount
      && s.start == (if sa.start <= sb.start then sa.start else sb.start)
      && s.end == (if sa.end >= sb.end then sa.end else sb.end)
  {
    TotalConcat(a, b, Calories);
    TotalConcat(a, b, Protein);
    TotalConcat(a, b, Carbs);
    TotalConcat(a, b, Fat);
    EarliestConcat(a, b);
    LatestConcat(a, b);
  }

  lemma EarliestConcat(a: seq<LoggedMeal>, b: seq<LoggedMeal>)
    requires a != [] && b != []
    ensures Earliest(a + b) == if Earliest(a) <= Earliest(b) then Earliest(a) else Earliest(b)
  {
    var t := Earliest(a + b);
    var m :| m in a + b && m.loggedAt == t;
    if m in a {
      assert t >= Earliest(a);
    } else {
      assert m in b;
      assert t >= Earliest(b);
    }
    var ma :| ma in a && ma.loggedAt == Earliest(a);
    var mb :| mb in b && mb.loggedAt == Earliest(b);
    assert ma in a + b && mb in a + b;
  }

  lemma LatestConcat(a: seq<LoggedMeal>, b: seq<LoggedMeal>)
    requires a != [] && b != []
    ensures Latest(a + b) == if Latest(a) >= Latest(b) then Latest(a) else Latest(b)
  {
    var t := Latest(a + b);
    var m :| m in a + b && m.loggedAt == t;
    if m in a {
      assert t <= Latest(a);
    } else {
      assert m in b;
      assert t <= Latest(b);
    }
    var ma :| ma in a && ma.loggedAt == Latest(a);
    var mb :| mb in b && mb.loggedAt == Latest(b);
    assert ma in a + b && mb in a + b;
  }

  // ---------------------------------------------------------------- grouping by day

  /** The UTC calendar day of a meal (the `YYYY-MM-DD` key of its ISO timestamp). */
  function DayKey(m: LoggedMeal): int {
    m.loggedAt / MsPerDay
  }

  /** The test that picks out one day's meals. */
  function OnDay(day: int): LoggedMeal -> bool {
    (m: LoggedMeal) => DayKey(m) == day
  }

  predicate Distinct(days: seq<int>) {
    forall i, j :: 0 <= i < j < |days| ==> days[i] != days[j]
  }

  /** The number of meals in the groups, counted over the keys in `days`. */
  function GroupSizes(days: seq<int>, groups: map<int, seq<LoggedMeal>>): nat
    requires forall i :: 0 <= i < |days| ==> days[i] in groups
  {
    if days == [] then 0 else |groups[days[0]]| + GroupSizes(days[1..], groups)
  }

  /**
   * What the grouping holds after the meals of `prefix`: one non-empty group per day that has
   * meals, holding that day's meals in order, with `days` listing each key once.
   */
  ghost predicate Grouped(prefix: seq<LoggedMeal>, days: seq<int>, groups: map<int, seq<LoggedMeal>>) {
    && Distinct(days)
    && (forall d :: d in groups <==> d in days)
    && (forall j :: 0 <= j < |days| ==> days[j] in groups)
    && (forall j :: 0 <= j < |prefix| ==> DayKey(prefix[j]) in groups)
    && (forall d :: d in groups ==> groups[d] != [] && groups[d] == Filter(prefix, OnDay(d)))
    && GroupSizes(days, groups) == |prefix|
  }

  /**
   * `groupMealsByDate`: a map from each day that has meals to those meals in input order.
   * `days` lists the keys in the order the map received them.
   */
  method GroupMealsByDate(meals: seq<LoggedMeal>) returns (days: seq<int>, groups: map<int, seq<LoggedMeal>>)
    ensures Distinct(days) && forall d :: d in groups <==> d in days
    ensures forall m :: m in meals ==> DayKey(m) in groups
    ensures forall d :: d in groups ==> groups[d] != [] && groups[d] == Filter(meals, OnDay(d))
    ensures forall d, m :: d in groups && m in meals ==> (m in groups[d] <==> DayKey(m) == d)
    ensures forall j :: 0 <= j < |days| ==> days[j] in groups
    ensures GroupSizes(days, groups) == |meals|
  {
    days := [];
    groups := map[];
    var i := 0;
    while i < |meals|
      invariant 0 <= i <= |meals|
      invariant Grouped(meals[..i], days, groups)
    {
      days, groups := AddMeal(meals[..i], meals[i], days, groups);
      PrefixSnoc(meals, i);
      i := i + 1;
    }
    WholePrefix(meals);
    GroupedMeaning(meals, days, groups);
  }

  /** The `forEach` callback: creates the meal's group when missing, then pushes the meal. */
  method AddMeal(ghost prefix: seq<LoggedMeal>, meal: LoggedMeal, days: seq<int>, groups: map<int, seq<LoggedMeal>>)
    returns (days': seq<int>, groups': map<int, seq<LoggedMeal>>)
    requires Grouped(prefix, days, groups)
    ensures Grouped(prefix + [meal], days', groups')
  {
    days', groups' := days, groups;
    var key := DayKey(meal);
    if key !in groups' {
      days' := days' + [key];
      groups' := groups'[key := []];
    }
    groups' := groups'[key := groups'[key] + [meal]];
    assert days' == NextDays(days, groups, key);
    assert groups' == NextGroups(groups, key, meal);
    AddMealStep(prefix, meal, days, groups);
  }

  /** The keys after adding a meal of day `key`. */
  function NextDays(days: seq<int>, groups: map<int, seq<LoggedMeal>>, key: int): seq<int> {
    if key in groups then days else days + [key]
  }

  /** The groups after adding `meal` to the group of day `key`. */
  function NextGroups(groups: map<int, seq<LoggedMeal>>, key: int, meal: LoggedMeal): map<int, seq<LoggedMeal>> {
    groups[key := (if key in groups then groups[key] else []) + [meal]]
  }

  lemma AddMealStep(prefix: seq<LoggedMeal>, meal: LoggedMeal, days: seq<int>, groups: map<int, seq<LoggedMeal>>)
    requires Grouped(prefix, days, groups)
    ensures Grouped(prefix + [meal], NextDays(days, groups, DayKey(meal)), NextGroups(groups, DayKey(meal), meal))
  {
    var key := DayKey(meal);
    KeysStep(days, groups, key, meal);
    PrefixStep(prefix, meal, groups);
    FilterStep(prefix, meal, groups);
    SizesStep(days, groups, key, meal);
  }

  lemma KeysStep(days: seq<int>, groups: map<int, seq<LoggedMeal>>, key: int, meal: LoggedMeal)
    requires Distinct(days) && (forall d :: d in groups <==> d in days)
    requires forall j :: 0 <= j < |days| ==> days[j] in groups
    ensures var days', groups' := NextDays(days, groups, key), NextGroups(groups, key, meal);
      && Distinct(days') && (forall d :: d in groups' <==> d in days')
      && (forall j :: 0 <= j < |days'| ==> days'[j] in groups')
  {
  }

  lemma PrefixStep(prefix: seq<LoggedMeal>, meal: LoggedMeal, groups: map<int, seq<LoggedMeal>>)
    requires forall j :: 0 <= j < |prefix| ==> DayKey(prefix[j]) in groups
    ensures var groups' := NextGroups(groups, DayKey(meal), meal);
      forall j :: 0 <= j < |prefix + [meal]| ==> DayKey((prefix + [meal])[j]) in groups'
  {
    forall j | 0 <= j < |prefix + [meal]|
      ensures DayKey((prefix + [meal])[j]) in NextGroups(groups, DayKey(meal), meal)
    {
      if j < |prefix| {
        assert (prefix + [meal])[j] == prefix[j];
      }
    }
  }

  lemma FilterStep(prefix: seq<LoggedMeal>, meal: LoggedMeal, groups: map<int, seq<LoggedMeal>>)
    requires forall j :: 0 <= j < |prefix| ==> DayKey(prefix[j]) in groups
    requires forall d :: d in groups ==> groups[d] != [] && groups[d] == Filter(prefix, OnDay(d))
    ensures var groups' := NextGroups(groups, DayKey(meal), meal);
      forall d :: d in groups' ==> groups'[d] != [] && groups'[d] == Filter(prefix + [meal], OnDay(d))
  {
    var key := DayKey(meal);
    var groups' := NextGroups(groups, key, meal);
    forall d | d in groups'
      ensures groups'[d] != [] && groups'[d] == Filter(prefix + [meal], OnDay(d))
    {
      FilterSnoc(prefix, meal, OnDay(d));
      if d != key {
        assert groups'[d] == groups[d];
      } else if key !in groups {
        NoMealsOnNewDay(prefix, groups, key);
      }
    }
  }

  lemma SizesStep(days: seq<int>, groups: map<int, seq<LoggedMeal>>, key: int, meal: LoggedMeal)
    requires Distinct(days) && (forall d :: d in groups <==> d in days)
    requires forall j :: 0 <= j < |days| ==> days[j] in groups
    ensures var days', groups' := NextDays(days, groups, key), NextGroups(groups, key, meal);
      && (forall j :: 0 <= j < |days'| ==> days'[j] in groups')
      && GroupSizes(days', groups') == GroupSizes(days, groups) + 1
  {
    var with := groups;
    var days' := days;
    if key !in groups {
      assert forall j :: 0 <= j < |days| ==> days[j] in groups && days[j] != key;
      GroupSizesUnchanged(days, groups, groups[key := []]);
      GroupSizesSnoc(days, groups[key := []], key);
      with := groups[key := []];
      days' := days + [key];
    }
    assert key in days';
    GroupSizesGrow(days', with, key, meal);
    assert NextGroups(groups, key, meal) == with[key := with[key] + [meal]];
  }

  /** What the finished grouping says about each meal. */
  lemma GroupedMeaning(meals: seq<LoggedMeal>, days: seq<int>, groups: map<int, seq<LoggedMeal>>)
    requires Grouped(meals, days, groups)
    ensures Distinct(days) && forall d :: d in groups <==> d in days
    ensures forall m :: m in meals ==> DayKey(m) in groups
    ensures forall d :: d in groups ==> groups[d] != [] && groups[d] == Filter(meals, OnDay(d))
    ensures forall d, m :: d in groups && m in meals ==> (m in groups[d] <==> DayKey(m) == d)
    ensures forall j :: 0 <= j < |days| ==> days[j] in groups
    ensures GroupSizes(days, groups) == |meals|
  {
    forall m | m in meals
      ensures DayKey(m) in groups
    {
      var j :| 0 <= j < |meals| && meals[j] == m;
    }
  }

  /** A day that has no group yet has no meals so far. */
  lemma NoMealsOnNewDay(prefix: seq<LoggedMeal>, groups: map<int, seq<LoggedMeal>>, key: int)
    requires forall j :: 0 <= j < |prefix| ==> DayKey(prefix[j]) in groups
    requires key !in groups
    ensures Filter(prefix, OnDay(key)) == []
  {
    forall x | x in prefix
      ensures !OnDay(key)(x)
    {
      var j :| 0 <= j < |prefix| && prefix[j] == x;
    }
    FilterNone(prefix, OnDay(key));
  }

  /** Sizes counted over keys that two maps agree on are the same. */
  lemma {:induction false} GroupSizesUnchanged(days: seq<int>, g: map<int, seq<LoggedMeal>>, h: map<int, seq<LoggedMeal>>)
    requires forall i :: 0 <= i < |days| ==> days[i] in g && days[i] in h && g[days[i]] == h[days[i]]
    ensures GroupSizes(days, g) == GroupSizes(days, h)
  {
    if days != [] {
      GroupSizesUnchanged(days[1..], g, h);
    }
  }

  /** A new key with an empty group adds nothing. */
  lemma {:induction false} GroupSizesSnoc(days: seq<int>, g: map<int, seq<LoggedMeal>>, key: int)
    requires forall i :: 0 <= i < |days| ==> days[i] in g
    requires key in g && g[key] == []
    ensures GroupSizes(days + [key], g) == GroupSizes(days, g)
  {
    if days == [] {
      assert [key][1..] == [];
    } else {
      assert (days + [key])[1..] == days[1..] + [key];
      GroupSizesSnoc(days[1..], g, key);
    }
  }

  /** Pushing a meal onto a group listed once among the keys adds one. */
  lemma {:induction false} GroupSizesGrow(days: seq<int>, g: map<int, seq<LoggedMeal>>, key: int, m: LoggedMeal)
    requires forall i :: 0 <= i < |days| ==> days[i] in g
    requires Distinct(days) && key in days
    ensures GroupSizes(days, g[key := g[key] + [m]]) == GroupSizes(days, g) + 1
  {
    var h := g[key := g[key] + [m]];
    if days[0] == key {
      assert key !in days[1..];
      GroupSizesUnchanged(days[1..], g, h);
    } else {
      GroupSizesGrow(days[1..], g, key, m);
    }
  }
}
