/**
 * The prompt sent to the model (src/lib/promptBuilder.ts): a fixed header, the user's goal and
 * limits, two optional clauses, the equipment line and the reply template the parser reads.
 */
module PromptBuilder {
  import opened Text
  import opened Types
  import opened RecipeParser

  const Header := "You are a nutritionist and chef. Create ONE specific dinner recipe suggestion based on these requirements:\n\n"
  const FormatIntro := "Please provide the response in this EXACT format:\n\n"
  const Closing := "Make it simple, delicious, and perfectly matched to their goals. Be creative but practical!"

  const NamePlaceholder := "[Name of the dish]"
  const NumberPlaceholder := "[number only]"
  const IngredientsPlaceholder := "[List each ingredient on a new line with - prefix]"
  const StepsPlaceholder := "[Number each step]"
  const WhyPlaceholder := "[1-2 sentences explaining why this meal fits their goals]"

  /** `${n}` for an integer. */
  function IntToString(i: int): (s: string)
    ensures i >= 0 ==> s == NatToString(i)
    ensures i < 0 ==> s == "-" + NatToString(-i)
  {
    if i < 0 then "-" + NatToString(-i) else NatToString(i)
  }

  // ---------------------------------------------------------------- the reply template

  /**
   * The lines of the reply template, with one slot per recipe field in the order name,
   * six numbers, ingredients, instructions, rationale. Each label starts its own line.
   */
  function TemplateLines(slots: seq<string>): (lines: seq<string>)
    requires |slots| == 10
    ensures |lines| == 16
  {
    [RecipeNameLabel + " " + slots[0],
     CaloriesLabel + " " + slots[1],
     ProteinLabel + " " + slots[2],
     CarbsLabel + " " + slots[3],
     FatLabel + " " + slots[4],
     PrepTimeLabel + " " + slots[5],
     CookTimeLabel + " " + slots[6],
     "",
     IngredientsLabel,
     slots[7],
     "",
     InstructionsLabel,
     slots[8],
     "",
     WhyLabel,
     slots[9]]
  }

  /** The line of the template that starts with each of the ten labels. */
  const LabelLines: seq<nat> := [0, 1, 2, 3, 4, 5, 6, 8, 11, 14]

  /** The template with its slots filled in: its lines joined by `\n` (see `FillTemplateIsJoin`). */
  function FillTemplate(slots: seq<string>): string
    requires |slots| == 10
  {
    var l := TemplateLines(slots);
    l[0] + "\n" + (l[1] + "\n" + (l[2] + "\n" + (l[3] + "\n" + (l[4] + "\n" + (l[5] + "\n" + (l[6] + "\n" +
    (l[7] + "\n" + (l[8] + "\n" + (l[9] + "\n" + (l[10] + "\n" + (l[11] + "\n" + (l[12] + "\n" +
    (l[13] + "\n" + (l[14] + "\n" + l[15]))))))))))))))
  }

  lemma JoinStep(xs: seq<string>, k: nat)
    requires k + 1 < |xs|
    ensures Join(xs[k..], "\n") == xs[k] + "\n" + Join(xs[k + 1..], "\n")
  {
    assert xs[k..][1..] == xs[k + 1..];
  }

  /** The filled template is the sixteen template lines joined by `\n`. */
  lemma FillTemplateIsJoin(slots: seq<string>)
    requires |slots| == 10
    ensures FillTemplate(slots) == Join(TemplateLines(slots), "\n")
  {
    var xs := TemplateLines(slots);
    assert Join(xs[15..], "\n") == xs[15];
    JoinStep(xs, 14); JoinStep(xs, 13); JoinStep(xs, 12); JoinStep(xs, 11); JoinStep(xs, 10);
    JoinStep(xs, 9); JoinStep(xs, 8); JoinStep(xs, 7); JoinStep(xs, 6); JoinStep(xs, 5);
    JoinStep(xs, 4); JoinStep(xs, 3); JoinStep(xs, 2); JoinStep(xs, 1); JoinStep(xs, 0);
    assert xs[0..] == xs;
  }

  /** What the prompt puts in the slots. */
  const Placeholders := [NamePlaceholder, NumberPlaceholder, NumberPlaceholder, NumberPlaceholder,
                         NumberPlaceholder, NumberPlaceholder, NumberPlaceholder, IngredientsPlaceholder,
                         StepsPlaceholder, WhyPlaceholder]

  /** The format section that closes every prompt. */
  const FormatSection := FormatIntro + (FillTemplate(Placeholders) + "\n\n") + Closing

  /**
   * The template lists the ten labels the parser reads, each at the start of its own line,
   * in the parser's order.
   */
  lemma TemplateListsLabels(slots: seq<string>)
    requires |slots| == 10
    ensures |LabelLines| == |Labels|
    ensures forall k :: 0 <= k < |Labels| ==> LabelLines[k] < 16
    ensures forall j, k :: 0 <= j < k < |Labels| ==> LabelLines[j] < LabelLines[k]
    ensures forall k :: 0 <= k < |Labels| ==>
      |Labels[k]| <= |TemplateLines(slots)[LabelLines[k]]| &&
      TemplateLines(slots)[LabelLines[k]][..|Labels[k]|] == Labels[k]
  {
  }

  // ---------------------------------------------------------------- the sections

  function PrimaryGoalLine(prefs: UserPreferences): string {
    "- Primary goal: " + GoalName(prefs.primaryGoal) + "\n"
  }

  function CaloriesLine(prefs: UserPreferences): string {
    "- Maximum " + IntToString(prefs.maxCalories) + " calories per serving\n"
  }

  function ProteinLine(prefs: UserPreferences): string {
    "- Minimum " + IntToString(prefs.minProtein) + "g protein per serving\n"
  }

  function TimeLine(prefs: UserPreferences): string {
    "- Maximum " + IntToString(prefs.prepTime) + " minutes prep and cook time\n\n"
  }

  /** The goal and the three limits, under their heading. */
  function GoalsSection(prefs: UserPreferences): string {
    "GOALS:\n" + PrimaryGoalLine(prefs) + CaloriesLine(prefs) + ProteinLine(prefs) + TimeLine(prefs)
  }

  /** The dietary restrictions clause, or nothing for an empty list. */
  function RestrictionsClause(prefs: UserPreferences): string {
    if |prefs.dietaryRestrictions| > 0 then
      "DIETARY RESTRICTIONS: " + Join(prefs.dietaryRestrictions, ", ") + "\n\n"
    else ""
  }

  /** The allergies clause, or nothing for an empty string (the only falsy string). */
  function AvoidClause(prefs: UserPreferences): string {
    if prefs.allergies != "" then "AVOID: " + prefs.allergies + "\n\n" else ""
  }

  function EquipmentLine(prefs: UserPreferences): string {
    "AVAILABLE EQUIPMENT: " + Join(prefs.equipment, ", ") + "\n\n"
  }

  /**
   * The sections in their fixed order: header, goals, the optional clauses, equipment and a
   * closing format section. The properties below hold whatever that format section says.
   */
  function PromptWith(prefs: UserPreferences, format: string): string {
    Header + GoalsSection(prefs) + RestrictionsClause(prefs) + AvoidClause(prefs)
    + EquipmentLine(prefs) + format
  }

  /** The prompt: the sections, closed by the format section of the source. */
  function Prompt(prefs: UserPreferences): string {
    PromptWith(prefs, FormatSection)
  }

  /**
   * `buildPrompt`: the prompt grown by appends, as the source does. The format section is a
   * constant text; it is appended as the template with its placeholders, between the request
   * for the exact format and the closing sentence.
   */
  method BuildPrompt(prefs: UserPreferences) returns (prompt: string)
    ensures prompt == Prompt(prefs)
  {
    prompt := Header;

    prompt := prompt + "GOALS:\n";
    prompt := prompt + PrimaryGoalLine(prefs);
    prompt := prompt + CaloriesLine(prefs);
    prompt := prompt + ProteinLine(prefs);
    prompt := prompt + TimeLine(prefs);
    Regroup5(Header, "GOALS:\n", PrimaryGoalLine(prefs), CaloriesLine(prefs), ProteinLine(prefs), TimeLine(prefs));
    assert prompt == Header + GoalsSection(prefs);

    if |prefs.dietaryRestrictions| > 0 {
      prompt := prompt + ("DIETARY RESTRICTIONS: " + Join(prefs.dietaryRestrictions, ", ") + "\n\n");
    }
    assert prompt == Header + GoalsSection(prefs) + RestrictionsClause(prefs);

    if prefs.allergies != "" {
      prompt := prompt + ("AVOID: " + prefs.allergies + "\n\n");
    }
    assert prompt == Header + GoalsSection(prefs) + RestrictionsClause(prefs) + AvoidClause(prefs);

    prompt := prompt + ("AVAILABLE EQUIPMENT: " + Join(prefs.equipment, ", ") + "\n\n");
    var body := prompt;

    prompt := prompt + FormatIntro;
    prompt := prompt + (FillTemplate(Placeholders) + "\n\n");
    prompt := prompt + Closing;
    FormatAppends(body);
  }

  /** Appending the three parts of the format section appends the section. */
  lemma FormatAppends(body: string)
    ensures body + FormatIntro + (FillTemplate(Placeholders) + "\n\n") + Closing == body + FormatSection
  {
    Regroup3(body, FormatIntro, FillTemplate(Placeholders) + "\n\n", Closing);
  }

  /** `x + a + b + c + d + e` is `x` followed by the five pieces as one. */
  lemma Regroup5(x: string, a: string, b: string, c: string, d: string, e: string)
    ensures x + a + b + c + d + e == x + (a + b + c + d + e)
  {
  }

  lemma Regroup3(x: string, a: string, b: string, c: string)
    ensures x + a + b + c == x + (a + b + c)
  {
  }

  /** The first of six consecutive pieces is a prefix of their concatenation, the last a suffix. */
  lemma SixFramed(a: string, b: string, c: string, d: string, e: string, f: string)
    ensures var s := a + b + c + d + e + f; |a| <= |s| && s[..|a|] == a
    ensures var s := a + b + c + d + e + f; |f| <= |s| && s[|s| - |f|..] == f
  {
    assert a + b + c + d + e + f == a + (b + c + d + e + f);
  }

  lemma SixSecond(a: string, b: string, c: string, d: string, e: string, f: string)
    ensures Includes(a + b + c + d + e + f, b)
  {
    IncludesPart(a, b, c + d + e + f);
    assert a + b + c + d + e + f == a + b + (c + d + e + f);
  }

  lemma SixThird(a: string, b: string, c: string, d: string, e: string, f: string)
    ensures Includes(a + b + c + d + e + f, c)
  {
    IncludesPart(a + b, c, d + e + f);
    assert a + b + c + d + e + f == (a + b) + c + (d + e + f);
  }

  lemma SixFourth(a: string, b: string, c: string, d: string, e: string, f: string)
    ensures Includes(a + b + c + d + e + f, d)
  {
    IncludesPart(a + b + c, d, e + f);
    assert a + b + c + d + e + f == (a + b + c) + d + (e + f);
  }

  lemma SixFifth(a: string, b: string, c: string, d: string, e: string, f: string)
    ensures Includes(a + b + c + d + e + f, e)
  {
    IncludesPart(a + b + c + d, e, f);
  }

  /** Each of five consecutive pieces is included in their concatenation. */
  lemma FivePieces(a: string, b: string, c: string, d: string, e: string)
    ensures var s := a + b + c + d + e;
      Includes(s, a) && Includes(s, b) && Includes(s, c) && Includes(s, d) && Includes(s, e)
  {
    var s := a + b + c + d + e;
    IncludesPart([], a, b + c + d + e);
    assert s == [] + a + (b + c + d + e);
    IncludesPart(a, b, c + d + e);
    assert s == a + b + (c + d + e);
    IncludesPart(a + b, c, d + e);
    assert s == (a + b) + c + (d + e);
    IncludesPart(a + b + c, d, e);
    IncludesPart(a + b + c + d, e, []);
    assert s == (a + b + c + d) + e + [];
  }

  // ---------------------------------------------------------------- properties

  /** Every prompt starts with the fixed header. */
  lemma PromptStartsWithHeader(prefs: UserPreferences, format: string)
    ensures |Header| <= |PromptWith(prefs, format)| && PromptWith(prefs, format)[..|Header|] == Header
  {
    SixFramed(Header, GoalsSection(prefs), RestrictionsClause(prefs), AvoidClause(prefs),
              EquipmentLine(prefs), format);
  }

  /** Every prompt ends with its format section; the source's ends with the reply template and the closing sentence. */
  lemma PromptEndsWithFormat(prefs: UserPreferences, format: string)
    ensures |format| <= |PromptWith(prefs, format)|
    ensures PromptWith(prefs, format)[|PromptWith(prefs, format)| - |format|..] == format
  {
    SixFramed(Header, GoalsSection(prefs), RestrictionsClause(prefs), AvoidClause(prefs),
              EquipmentLine(prefs), format);
  }

  /** The prompt states the goal and the three limits. */
  lemma PromptStatesGoals(prefs: UserPreferences, format: string)
    ensures Includes(PromptWith(prefs, format), PrimaryGoalLine(prefs))
    ensures Includes(PromptWith(prefs, format), CaloriesLine(prefs))
    ensures Includes(PromptWith(prefs, format), ProteinLine(prefs))
    ensures Includes(PromptWith(prefs, format), TimeLine(prefs))
  {
    var p := PromptWith(prefs, format);
    SixSecond(Header, GoalsSection(prefs), RestrictionsClause(prefs), AvoidClause(prefs),
              EquipmentLine(prefs), format);
    FivePieces("GOALS:\n", PrimaryGoalLine(prefs), CaloriesLine(prefs), ProteinLine(prefs), TimeLine(prefs));
    IncludesTrans(p, GoalsSection(prefs), PrimaryGoalLine(prefs));
    IncludesTrans(p, GoalsSection(prefs), CaloriesLine(prefs));
    IncludesTrans(p, GoalsSection(prefs), ProteinLine(prefs));
    IncludesTrans(p, GoalsSection(prefs), TimeLine(prefs));
  }

  /**
   * The restrictions clause is present exactly when the list is non-empty, its entries joined by
   * ", " in order; for an empty list the prompt goes straight from the goals to the avoid clause.
   */
  lemma RestrictionsClauseIff(prefs: UserPreferences, format: string)
    ensures RestrictionsClause(prefs) != "" <==> |prefs.dietaryRestrictions| > 0
    ensures |prefs.dietaryRestrictions| > 0 ==>
      Includes(PromptWith(prefs, format), "DIETARY RESTRICTIONS: " + Join(prefs.dietaryRestrictions, ", ") + "\n\n")
    ensures |prefs.dietaryRestrictions| == 0 ==>
      PromptWith(prefs, format) == Header + GoalsSection(prefs) + AvoidClause(prefs) + EquipmentLine(prefs) + format
  {
    if |prefs.dietaryRestrictions| == 0 {
      assert Header + GoalsSection(prefs) + RestrictionsClause(prefs) == Header + GoalsSection(prefs);
    }
    SixThird(Header, GoalsSection(prefs), RestrictionsClause(prefs), AvoidClause(prefs),
             EquipmentLine(prefs), format);
  }

  /**
   * The avoid clause is present exactly when the allergies string is non-empty; without
   * allergies the prompt goes straight from the restrictions to the equipment line.
   */
  lemma AvoidClauseIff(prefs: UserPreferences, format: string)
    ensures AvoidClause(prefs) != "" <==> prefs.allergies != ""
    ensures prefs.allergies != "" ==> Includes(PromptWith(prefs, format), "AVOID: " + prefs.allergies + "\n\n")
    ensures prefs.allergies == "" ==>
      PromptWith(prefs, format) == Header + GoalsSection(prefs) + RestrictionsClause(prefs) + EquipmentLine(prefs) + format
  {
    if prefs.allergies == "" {
      var before := Header + GoalsSection(prefs) + RestrictionsClause(prefs);
      assert before + AvoidClause(prefs) == before;
    }
    SixFourth(Header, GoalsSection(prefs), RestrictionsClause(prefs), AvoidClause(prefs),
              EquipmentLine(prefs), format);
  }

  /** The equipment line is always there, also for an empty list. */
  lemma EquipmentAlwaysPresent(prefs: UserPreferences, format: string)
    ensures Includes(PromptWith(prefs, format), "AVAILABLE EQUIPMENT: " + Join(prefs.equipment, ", ") + "\n\n")
  {
    SixFifth(Header, GoalsSection(prefs), RestrictionsClause(prefs), AvoidClause(prefs),
             EquipmentLine(prefs), format);
  }
}
