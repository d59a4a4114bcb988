/**
 * The CSV export of the meal log (`mealsToCSV` in src/lib/exportMeals.ts): a header line of ten
 * column names, then one line per meal of ten cells, each wrapped in double quotes as it is.
 */
module ExportMeals {
  import opened Wrappers
  import opened Text
  import opened Types

  const NoMealsMessage := "No meals to export"

  const Headers: seq<string> := ["Date", "Time", "Meal Type", "Recipe Name", "Calories",
    "Protein (g)", "Carbs (g)", "Fat (g)", "Prep Time (min)", "Cook Time (min)"]

  /** The cell for a meal logged without a meal type. */
  const NotSpecified := "Not specified"

  /** The six numeric cells: the recipe's numbers in decimal, in column order. */
  function NumberCells(r: Recipe): (cells: seq<string>)
    ensures |cells| == 6 && forall k :: 0 <= k < 6 ==> AllDigits(cells[k])
  {
    [NatToString(r.calories), NatToString(r.protein), NatToString(r.carbs),
     NatToString(r.fat), NatToString(r.prepTime), NatToString(r.cookTime)]
  }

  /** The numeric cells read back as the recipe's calories, protein, carbs, fat, prep and cook time. */
  lemma NumberCellsDecode(r: Recipe)
    ensures var cells := NumberCells(r);
      && ParseDigits(cells[0]) == r.calories && ParseDigits(cells[1]) == r.protein
      && ParseDigits(cells[2]) == r.carbs && ParseDigits(cells[3]) == r.fat
      && ParseDigits(cells[4]) == r.prepTime && ParseDigits(cells[5]) == r.cookTime
  {
    ParseNatToString(r.calories);
    ParseNatToString(r.protein);
    ParseNatToString(r.carbs);
    ParseNatToString(r.fat);
    ParseNatToString(r.prepTime);
    ParseNatToString(r.cookTime);
  }

  /** The meal-type cell. */
  function MealTypeCell(t: Option<MealType>): (cell: string)
    ensures cell == NotSpecified <==> t.None?
  {
    if t.Some? then MealTypeName(t.value) else NotSpecified
  }

  /**
   * The ten cells of a meal's line, before quoting. `localeDate` and `localeTime` stand for the
   * browser's `toLocaleDateString` and `toLocaleTimeString` of the timestamp.
   */
  function Cells(meal: LoggedMeal, localeDate: int -> string, localeTime: int -> string): (cells: seq<string>)
    ensures |cells| == |Headers|
    ensures cells[0] == localeDate(meal.loggedAt) && cells[1] == localeTime(meal.loggedAt)
    ensures cells[2] == MealTypeCell(meal.mealType) && cells[3] == meal.recipe.name
    ensures cells[4..] == NumberCells(meal.recipe)
  {
    [localeDate(meal.loggedAt), localeTime(meal.loggedAt), MealTypeCell(meal.mealType), meal.recipe.name]
      + NumberCells(meal.recipe)
  }

  /** A cell wrapped in double quotes, its own characters (quotes included) left as they are. */
  function Quote(cell: string): (q: string)
    ensures |q| == |cell| + 2 && q[0] == '"' && q[|q| - 1] == '"'
    ensures q[1..|q| - 1] == cell
  {
    "\"" + cell + "\""
  }

  /** Every cell quoted, in order. */
  function QuoteAll(cells: seq<string>): (quoted: seq<string>)
    ensures |quoted| == |cells|
    ensures forall i :: 0 <= i < |cells| ==> quoted[i] == Quote(cells[i])
  {
    if cells == [] then [] else [Quote(cells[0])] + QuoteAll(cells[1..])
  }

  /** One meal's line: its quoted cells joined by commas. */
  function Row(meal: LoggedMeal, localeDate: int -> string, localeTime: int -> string): string {
    Join(QuoteAll(Cells(meal, localeDate, localeTime)), ",")
  }

  /** The `map` from meals to lines, in input order. */
  function Rows(meals: seq<LoggedMeal>, localeDate: int -> string, localeTime: int -> string): (rows: seq<string>)
    ensures |rows| == |meals|
    ensures forall i :: 0 <= i < |meals| ==> rows[i] == Row(meals[i], localeDate, localeTime)
  {
    if meals == [] then [] else [Row(meals[0], localeDate, localeTime)] + Rows(meals[1..], localeDate, localeTime)
  }

  /**
   * `mealsToCSV`: the fixed message for no meals; otherwise the header line, then the meals'
   * lines, joined by newlines. The export is never the message when there are meals, since it
   * then starts with the header.
   */
  function MealsToCSV(meals: seq<LoggedMeal>, localeDate: int -> string, localeTime: int -> string): (csv: string)
    ensures meals == [] ==> csv == NoMealsMessage
    ensures meals != [] ==> |csv| >= |Headers[0]| && csv[..|Headers[0]|] == Headers[0]
    ensures csv == NoMealsMessage <==> meals == []
  {
    if meals == [] then NoMealsMessage
    else
      var lines := Lines(meals, localeDate, localeTime);
      HeaderFirst(lines);
      Join(lines, "\n")
  }

  /** The lines of a non-empty export: the header line, then one line per meal in input order. */
  function Lines(meals: seq<LoggedMeal>, localeDate: int -> string, localeTime: int -> string): (lines: seq<string>)
    ensures |lines| == |meals| + 1 && lines[0] == Join(Headers, ",")
    ensures lines[1..] == Rows(meals, localeDate, localeTime)
  {
    [Join(Headers, ",")] + Rows(meals, localeDate, localeTime)
  }

  /** Lines that start with the header line join into text that starts with the first column name. */
  lemma HeaderFirst(lines: seq<string>)
    requires |lines| >= 1 && lines[0] == Join(Headers, ",")
    ensures var csv := Join(lines, "\n");
      |csv| >= |Headers[0]| && csv[..|Headers[0]|] == Headers[0] && csv != NoMealsMessage
  {
    var first := Headers[0];
    JoinStart(Headers, ",", first);
    JoinStart(lines, "\n", first);
    var csv := Join(lines, "\n");
    assert csv[0] == first[0] == 'D';
    assert NoMealsMessage[0] == 'N';
  }

  /** A join starts with whatever its first piece starts with. */
  lemma {:induction false} JoinStart(xs: seq<string>, sep: string, p: string)
    requires |xs| >= 1 && |xs[0]| >= |p| && xs[0][..|p|] == p
    ensures |Join(xs, sep)| >= |p| && Join(xs, sep)[..|p|] == p
  {
    if |xs| >= 2 {
      assert Join(xs, sep) == xs[0] + (sep + Join(xs[1..], sep));
    }
  }

  /** A join holds no character that neither the separator nor any piece holds. */
  lemma {:induction false} JoinLacks(xs: seq<string>, sep: string, c: char)
    requires c !in sep && forall i :: 0 <= i < |xs| ==> c !in xs[i]
    ensures c !in Join(xs, sep)
  {
    if |xs| >= 2 {
      JoinLacks(xs[1..], sep, c);
    }
  }

  /** A free-text cell that holds neither a newline nor a comma. */
  predicate Plain(s: string) {
    '\n' !in s && ',' !in s
  }

  /** The cells a meal takes from outside the recipe's numbers and the meal type. */
  predicate PlainMeal(meal: LoggedMeal, localeDate: int -> string, localeTime: int -> string) {
    Plain(localeDate(meal.loggedAt)) && Plain(localeTime(meal.loggedAt)) && Plain(meal.recipe.name)
  }

  lemma HeadersPlain()
    ensures forall k :: 0 <= k < |Headers| ==> Plain(Headers[k])
  {
  }

  /** Every cell of a meal with plain free text is plain: digits and meal types hold neither. */
  lemma CellsPlain(meal: LoggedMeal, localeDate: int -> string, localeTime: int -> string)
    requires PlainMeal(meal, localeDate, localeTime)
    ensures forall k :: 0 <= k < 10 ==> Plain(Cells(meal, localeDate, localeTime)[k])
  {
    var cells := Cells(meal, localeDate, localeTime);
    forall k | 4 <= k < 10
      ensures Plain(cells[k])
    {
      assert forall i :: 0 <= i < |cells[k]| ==> IsDigit(cells[k][i]);
    }
    if meal.mealType.Some? {
      match meal.mealType.value
      case Breakfast =>
      case Lunch =>
      case Dinner =>
      case Snack =>
    }
  }

  /**
   * With plain free text, a meal's line splits at commas back into its ten quoted cells; the
   * fourth holds the recipe name and the last six the recipe's numbers.
   */
  lemma RowSplits(meal: LoggedMeal, localeDate: int -> string, localeTime: int -> string)
    requires PlainMeal(meal, localeDate, localeTime)
    ensures Split(Row(meal, localeDate, localeTime), ',') == QuoteAll(Cells(meal, localeDate, localeTime))
    ensures '\n' !in Row(meal, localeDate, localeTime)
  {
    var quoted := QuoteAll(Cells(meal, localeDate, localeTime));
    CellsPlain(meal, localeDate, localeTime);
    forall i | 0 <= i < |quoted|
      ensures ',' !in quoted[i] && '\n' !in quoted[i]
    {
      var cell := Cells(meal, localeDate, localeTime)[i];
      assert quoted[i] == ['"'] + cell + ['"'];
    }
    SplitJoin(quoted, ',');
    JoinLacks(quoted, ",", '\n');
  }

  /**
   * With plain free text, the export splits at newlines back into its lines: the header line
   * and one line per meal, in input order.
   */
  lemma CSVLines(meals: seq<LoggedMeal>, localeDate: int -> string, localeTime: int -> string)
    requires meals != []
    requires forall i :: 0 <= i < |meals| ==> PlainMeal(meals[i], localeDate, localeTime)
    ensures Split(MealsToCSV(meals, localeDate, localeTime), '\n') == Lines(meals, localeDate, localeTime)
  {
    LinesPlain(meals, localeDate, localeTime);
    SplitJoin(Lines(meals, localeDate, localeTime), '\n');
  }

  /** No line of an export with plain free text holds a newline. */
  lemma LinesPlain(meals: seq<LoggedMeal>, localeDate: int -> string, localeTime: int -> string)
    requires forall i :: 0 <= i < |meals| ==> PlainMeal(meals[i], localeDate, localeTime)
    ensures forall i :: 0 <= i < |meals| + 1 ==> '\n' !in Lines(meals, localeDate, localeTime)[i]
  {
    var lines := Lines(meals, localeDate, localeTime);
    var rows := Rows(meals, localeDate, localeTime);
    HeaderLinePlain();
    RowsPlain(meals, localeDate, localeTime);
    forall i | 1 <= i < |lines|
      ensures '\n' !in lines[i]
    {
      assert lines[i] == rows[i - 1];
    }
  }

  /** No meal line of an export with plain free text holds a newline. */
  lemma RowsPlain(meals: seq<LoggedMeal>, localeDate: int -> string, localeTime: int -> string)
    requires forall i :: 0 <= i < |meals| ==> PlainMeal(meals[i], localeDate, localeTime)
    ensures forall k :: 0 <= k < |meals| ==> '\n' !in Rows(meals, localeDate, localeTime)[k]
  {
    forall k | 0 <= k < |meals|
      ensures '\n' !in Rows(meals, localeDate, localeTime)[k]
    {
      RowSplits(meals[k], localeDate, localeTime);
    }
  }

  /** The header line holds no newline. */
  lemma HeaderLinePlain()
    ensures '\n' !in Join(Headers, ",")
  {
    HeadersPlain();
    JoinLacks(Headers, ",", '\n');
  }


}
