/**
 * The tolerant recipe parser (src/lib/recipeParser.ts). Each field is pulled out of the
 * model's free text by its own case-insensitive regular expression; a field whose expression
 * does not match keeps its zero or empty value, so parsing never fails.
 *
 * Every expression has the shape `LABEL:\s*<rest>` and is modelled by `MatchAt`, which
 * tries it anchored at the start of a string (including the backtracking of `\s*`), and
 * `Find`, which tries it at every position from the left the way `String.prototype.match`
 * does without the `g` flag.
 */
module RecipeParser {
  import opened Wrappers
  import opened Text
  import opened Types
  import opened Seqs

  const RecipeNameLabel := "RECIPE NAME:"
  const CaloriesLabel := "CALORIES:"
  const ProteinLabel := "PROTEIN:"
  const CarbsLabel := "CARBS:"
  const FatLabel := "FAT:"
  const PrepTimeLabel := "PREP TIME:"
  const CookTimeLabel := "COOK TIME:"
  const IngredientsLabel := "INGREDIENTS:"
  const InstructionsLabel := "INSTRUCTIONS:"
  const WhyLabel := "WHY THIS WORKS:"

  /** The ten labels, in the order the response template lists them. */
  const Labels := [RecipeNameLabel, CaloriesLabel, ProteinLabel, CarbsLabel, FatLabel,
                   PrepTimeLabel, CookTimeLabel, IngredientsLabel, InstructionsLabel, WhyLabel]

  // ---------------------------------------------------------------- case-insensitive labels

  /**
   * Under the `i` flag (without `u`) a text character matches an upper-case ASCII label
   * character when it is that character or its lower-case form; no non-ASCII character folds
   * onto an ASCII one. Spaces and colons match only themselves.
   */
  predicate CharMatches(c: char, l: char) {
    c == l || ('A' <= l <= 'Z' && c as int == l as int + 32)
  }

  /** `u` begins with `tag`, ignoring case. */
  predicate StartsWithLabel(u: string, tag: string) {
    |tag| <= |u| && forall i :: 0 <= i < |tag| ==> CharMatches(u[i], tag[i])
  }

  /** `tag` occurs nowhere in `s`, ignoring case. */
  predicate LabelFree(s: string, tag: string) {
    forall p :: 0 <= p <= |s| ==> !StartsWithLabel(s[p..], tag)
  }

  // ---------------------------------------------------------------- scanning helpers

  /** The end of the run of `\s` characters that starts at `i`. */
  function SkipWhitespace(u: string, i: nat): (j: nat)
    requires i <= |u|
    ensures i <= j <= |u|
    ensures forall k :: i <= k < j ==> IsWhitespace(u[k])
    ensures j < |u| ==> !IsWhitespace(u[j])
    decreases |u| - i
  {
    if i < |u| && IsWhitespace(u[i]) then SkipWhitespace(u, i + 1) else i
  }

  /** The end of the run of `\d` characters that starts at `i`. */
  function SkipDigits(u: string, i: nat): (j: nat)
    requires i <= |u|
    ensures i <= j <= |u|
    ensures forall k :: i <= k < j ==> IsDigit(u[k])
    ensures j < |u| ==> !IsDigit(u[j])
    decreases |u| - i
  {
    if i < |u| && IsDigit(u[i]) then SkipDigits(u, i + 1) else i
  }

  /** The end of the line that contains position `i`: the next line terminator, or the end. */
  function LineEnd(u: string, i: nat): (j: nat)
    requires i <= |u|
    ensures i <= j <= |u|
    ensures forall k :: i <= k < j ==> !IsLineTerminator(u[k])
    ensures j < |u| ==> IsLineTerminator(u[j])
    decreases |u| - i
  {
    if i < |u| && !IsLineTerminator(u[i]) then LineEnd(u, i + 1) else i
  }

  /** The end of the run of `\n` characters that starts at `i`. */
  function NewlineRunEnd(u: string, i: nat): (j: nat)
    requires i <= |u|
    ensures i <= j <= |u|
    ensures forall k :: i <= k < j ==> u[k] == '\n'
    ensures j < |u| ==> u[j] != '\n'
    decreases |u| - i
  {
    if i < |u| && u[i] == '\n' then NewlineRunEnd(u, i + 1) else i
  }

  // ---------------------------------------------------------------- lookaheads

  /** `\n+WHY THIS WORKS:` matches at the start of `u`. */
  predicate WhyAhead(u: string) {
    |u| > 0 && u[0] == '\n' && StartsWithLabel(u[NewlineRunEnd(u, 0)..], WhyLabel)
  }

  /** What ends a lazily matched block. */
  datatype Lookahead =
    | BlankLineOrInstructions  // (?=\n\n|INSTRUCTIONS:)
    | WhyOrEnd                 // (?=\n+WHY THIS WORKS:|$)
    | WhyOnly                  // \n+WHY THIS WORKS: (the fallback's replace)
    | EndOfInput               // $ without the `m` flag

  /** The lookahead holds at the start of the remaining text `u`. */
  predicate LookaheadHolds(u: string, look: Lookahead) {
    match look
    case BlankLineOrInstructions =>
      (|u| >= 2 && u[0] == '\n' && u[1] == '\n') || StartsWithLabel(u, InstructionsLabel)
    case WhyOrEnd => u == [] || WhyAhead(u)
    case WhyOnly => WhyAhead(u)
    case EndOfInput => u == []
  }

  /** The first position at or after `from` where the lookahead holds. */
  function FirstLookahead(u: string, from: nat, look: Lookahead): (r: Option<nat>)
    requires from <= |u|
    ensures r.Some? ==> from <= r.value <= |u| && LookaheadHolds(u[r.value..], look)
    ensures r.Some? ==> forall k :: from <= k < r.value ==> !LookaheadHolds(u[k..], look)
    ensures r.None? ==> forall k :: from <= k <= |u| ==> !LookaheadHolds(u[k..], look)
    decreases |u| - from
  {
    if LookaheadHolds(u[from..], look) then Some(from)
    else if from == |u| then None
    else
      var r := FirstLookahead(u, from + 1, look);
      assert forall k :: from <= k < from + 1 ==> !LookaheadHolds(u[k..], look) by {
        forall k | from <= k < from + 1 ensures !LookaheadHolds(u[k..], look) { assert k == from; }
      }
      r
  }

  // ---------------------------------------------------------------- the expressions

  /**
   * `\s*\n([\s\S]*?)(?=look)` after the label, which ends at `i`: `\s*` is first tried up to
   * `j` and then shorter; the group is the shortest run after the `\n` that the lookahead
   * accepts.
   */
  function LazyBlock(u: string, i: nat, j: nat, look: Lookahead): Option<string>
    requires i <= j <= |u|
    decreases j
  {
    if j < |u| && u[j] == '\n' && FirstLookahead(u, j + 1, look).Some? then
      Some(u[j + 1..FirstLookahead(u, j + 1, look).value])
    else if j == i then None
    else LazyBlock(u, i, j - 1, look)
  }

  /** `\s*(.+)` after the label: the rest of the line after the longest `\s*` that leaves a character. */
  function LineCapture(u: string, i: nat, j: nat): (r: Option<string>)
    requires i <= j <= |u|
    ensures r.Some? ==> r.value != [] && forall k :: 0 <= k < |r.value| ==> !IsLineTerminator(r.value[k])
    decreases j
  {
    if j < |u| && !IsLineTerminator(u[j]) then Some(u[j..LineEnd(u, j)])
    else if j == i then None
    else LineCapture(u, i, j - 1)
  }

  /** The regular expressions of the parser. */
  datatype Pattern =
    | NamePattern                  // /RECIPE NAME:\s*(.+)/i
    | NumberPattern(tag: string) // /<LABEL>\s*(\d+)/i
    | IngredientsPattern           // /INGREDIENTS:\s*\n([\s\S]*?)(?=\n\n|INSTRUCTIONS:)/i
    | InstructionsPattern          // /INSTRUCTIONS:\s*\n([\s\S]*?)(?=\n+WHY THIS WORKS:|$)/i
    | InstructionsFallback         // /INSTRUCTIONS:\s*\n([\s\S]*)/i
    | WhyPattern                   // /WHY THIS WORKS:\s*\n([\s\S]*?)$/i

  function LabelOf(p: Pattern): string {
    match p
    case NamePattern => RecipeNameLabel
    case NumberPattern(tag) => tag
    case IngredientsPattern => IngredientsLabel
    case InstructionsPattern => InstructionsLabel
    case InstructionsFallback => InstructionsLabel
    case WhyPattern => WhyLabel
  }

  /** What a capture of each expression looks like. */
  predicate CaptureShape(p: Pattern, g: string) {
    match p
    case NamePattern => g != [] && forall k :: 0 <= k < |g| ==> !IsLineTerminator(g[k])
    case NumberPattern(_) => g != [] && AllDigits(g)
    case _ => true
  }

  /**
   * The expression tried at the start of `u`: its first capture group, or None. A match
   * needs the label there; `\d+` cannot start on a whitespace character, so for numbers only
   * the longest `\s*` can succeed.
   */
  function MatchAt(u: string, p: Pattern): (r: Option<string>)
    ensures r.Some? ==> StartsWithLabel(u, LabelOf(p)) && CaptureShape(p, r.value)
  {
    var tag := LabelOf(p);
    if !StartsWithLabel(u, tag) then None
    else
      var i := |tag|;
      var j := SkipWhitespace(u, i);
      match p
      case NamePattern => LineCapture(u, i, j)
      case NumberPattern(_) => if j < |u| && IsDigit(u[j]) then Some(u[j..SkipDigits(u, j)]) else None
      case IngredientsPattern => LazyBlock(u, i, j, BlankLineOrInstructions)
      case InstructionsPattern => LazyBlock(u, i, j, WhyOrEnd)
      case InstructionsFallback => LazyBlock(u, i, j, EndOfInput)
      case WhyPattern => LazyBlock(u, i, j, EndOfInput)
  }

  /** `text.match(re)` from position `pos` on: the capture at the leftmost position that matches. */
  function FindFrom(text: string, p: Pattern, pos: nat): (r: Option<string>)
    requires pos <= |text|
    ensures r.Some? ==> CaptureShape(p, r.value)
    decreases |text| - pos
  {
    var m := MatchAt(text[pos..], p);
    if m.Some? then m
    else if pos == |text| then None
    else FindFrom(text, p, pos + 1)
  }

  /** `text.match(re)`, reduced to its first capture group. */
  function Find(text: string, p: Pattern): (r: Option<string>)
    ensures r.Some? ==> CaptureShape(p, r.value)
  {
    FindFrom(text, p, 0)
  }

  // ---------------------------------------------------------------- the fields

  /** `.replace(/\n+WHY THIS WORKS:[\s\S]*\/i, '')`: cut at the first newline run before the label. */
  function RemoveWhySection(s: string): string {
    match FirstLookahead(s, 0, WhyOnly)
    case Some(k) => s[..k]
    case None => s
  }

  /** `line.replace(/^-\s*\/, '').trim()`: a leading dash and the whitespace after it go. */
  function StripBullet(line: string): (r: string)
    ensures Trimmed(r)
    ensures line != [] && line[0] == '-' ==> r == Trim(line[1..])
    ensures line == [] || line[0] != '-' ==> r == Trim(line)
  {
    if line != [] && line[0] == '-' then
      TrimAfterTrimStart(line[1..]);
      Trim(TrimStart(line[1..]))
    else Trim(line)
  }

  /** The test of `.filter(line => line.trim())`: a line that is not all whitespace. */
  predicate IsNonBlank(line: string) {
    Trim(line) != []
  }

  /**
   * `.filter(line => line.trim())`: the lines that are not blank, in their order. It is the
   * general `Filter` with the blank-line test (`NonBlankIsFilter`), written out so that its
   * unfolding stays cheap; `NonBlankLineByLine` pins the order and the multiplicity.
   */
  function NonBlank(lines: seq<string>): (r: seq<string>)
    ensures |r| <= |lines|
    ensures forall k :: 0 <= k < |r| ==> Trim(r[k]) != []
    ensures forall x :: x in r <==> x in lines && Trim(x) != []
  {
    if lines == [] then []
    else if Trim(lines[0]) == [] then NonBlank(lines[1..])
    else [lines[0]] + NonBlank(lines[1..])
  }

  /**
   * The filter decides line by line: the kept lines of a concatenation are those of each part,
   * in order, and a single line is kept, once, exactly when it is not blank.
   */
  lemma NonBlankLineByLine(a: seq<string>, b: seq<string>, line: string)
    ensures NonBlank(a + b) == NonBlank(a) + NonBlank(b)
    ensures NonBlank([line]) == if Trim(line) != [] then [line] else []
  {
    NonBlankIsFilter(a + b);
    NonBlankIsFilter(a);
    NonBlankIsFilter(b);
    FilterConcat(a, b, IsNonBlank);
    assert [line][1..] == [];
  }

  /** The blank-line filter is `filter` with the blank-line test. */
  lemma {:induction false} NonBlankIsFilter(lines: seq<string>)
    ensures NonBlank(lines) == Filter(lines, IsNonBlank)
  {
    if lines != [] {
      NonBlankIsFilter(lines[1..]);
    }
  }

  /** `.map(StripBullet)`. */
  function StripBullets(lines: seq<string>): (r: seq<string>)
    ensures |r| == |lines|
    ensures forall k :: 0 <= k < |r| ==> r[k] == StripBullet(lines[k])
  {
    seq(|lines|, k requires 0 <= k < |lines| => StripBullet(lines[k]))
  }

  /**
   * The ingredient list made from the captured block: entry `k` is the `k`-th non-blank line of
   * the block, its bullet stripped and trimmed.
   */
  function IngredientLines(block: string): (r: seq<string>)
    ensures |r| == |NonBlank(Split(block, '\n'))|
    ensures forall k :: 0 <= k < |r| ==> Trimmed(r[k])
    ensures forall k :: 0 <= k < |r| ==> r[k] == StripBullet(NonBlank(Split(block, '\n'))[k])
  {
    StripBullets(NonBlank(Split(block, '\n')))
  }

  /** The entries of a block made of newline-free lines are those lines, non-blank and stripped. */
  lemma IngredientLinesOfLines(lines: seq<string>)
    requires |lines| >= 1 && forall k :: 0 <= k < |lines| ==> '\n' !in lines[k]
    ensures IngredientLines(Join(lines, "\n")) == StripBullets(NonBlank(lines))
  {
    SplitJoin(lines, '\n');
  }

  /**
   * The entries follow the lines: a concatenation of lines gives the entries of each part, in
   * order, and one line gives its stripped self exactly when it is not blank.
   */
  lemma IngredientsLineByLine(a: seq<string>, b: seq<string>, line: string)
    ensures StripBullets(NonBlank(a + b)) == StripBullets(NonBlank(a)) + StripBullets(NonBlank(b))
    ensures StripBullets(NonBlank([line])) == if Trim(line) != [] then [StripBullet(line)] else []
  {
    NonBlankLineByLine(a, b, line);
    StripBulletsConcat(NonBlank(a), NonBlank(b));
  }

  /** `map` distributes over concatenation. */
  lemma StripBulletsConcat(x: seq<string>, y: seq<string>)
    ensures StripBullets(x + y) == StripBullets(x) + StripBullets(y)
  {
  }

  function NameField(text: string): string {
    match Find(text, NamePattern)
    case Some(g) => Trim(g)
    case None => ""
  }

  function NumberField(text: string, tag: string): nat {
    match Find(text, NumberPattern(tag))
    case Some(g) => ParseDigits(g)
    case None => 0
  }

  function IngredientsField(text: string): seq<string> {
    match Find(text, IngredientsPattern)
    case Some(g) => IngredientLines(g)
    case None => []
  }

  /** The primary expression, then the fallback that keeps everything after the label. */
  function InstructionsField(text: string): string {
    match Find(text, InstructionsPattern)
    case Some(g) => Trim(g)
    case None =>
      match Find(text, InstructionsFallback)
      case Some(g) => Trim(RemoveWhySection(g))
      case None => ""
  }

  function WhyField(text: string): string {
    match Find(text, WhyPattern)
    case Some(g) => Trim(g)
    case None => ""
  }

  /** The recipe the parser extracts: each field from its own expression, independently. */
  function ParsedRecipe(text: string): Recipe {
    Recipe(
      NameField(text),
      NumberField(text, CaloriesLabel),
      NumberField(text, ProteinLabel),
      NumberField(text, CarbsLabel),
      NumberField(text, FatLabel),
      NumberField(text, PrepTimeLabel),
      NumberField(text, CookTimeLabel),
      IngredientsField(text),
      InstructionsField(text),
      WhyField(text))
  }

  /** One numeric field: the digits after its label when the expression matches, else `current`. */
  method MatchNumber(text: string, tag: string, current: nat) returns (n: nat)
    ensures Find(text, NumberPattern(tag)).Some? ==> n == NumberField(text, tag)
    ensures Find(text, NumberPattern(tag)).None? ==> n == current
  {
    n := current;
    var m := Find(text, NumberPattern(tag));
    if m.Some? { n := ParseDigits(m.value); }
  }

  /**
   * `parseRecipeResponse`: start from the empty recipe and overwrite each field whose
   * expression matches, one after another.
   */
  method ParseRecipeResponse(text: string) returns (recipe: Recipe)
    ensures recipe.name == NameField(text)
    ensures recipe.calories == NumberField(text, CaloriesLabel)
    ensures recipe.protein == NumberField(text, ProteinLabel)
    ensures recipe.carbs == NumberField(text, CarbsLabel)
    ensures recipe.fat == NumberField(text, FatLabel)
    ensures recipe.prepTime == NumberField(text, PrepTimeLabel)
    ensures recipe.cookTime == NumberField(text, CookTimeLabel)
    ensures recipe.ingredients == IngredientsField(text)
    ensures recipe.instructions == InstructionsField(text)
    ensures recipe.whyItWorks == WhyField(text)
    ensures recipe == ParsedRecipe(text)
  {
    var name, calories, protein, carbs, fat, prepTime, cookTime, ingredients, instructions, whyItWorks :=
      EmptyRecipe.name, EmptyRecipe.calories, EmptyRecipe.protein, EmptyRecipe.carbs, EmptyRecipe.fat,
      EmptyRecipe.prepTime, EmptyRecipe.cookTime, EmptyRecipe.ingredients, EmptyRecipe.instructions,
      EmptyRecipe.whyItWorks;

    var nameMatch := Find(text, NamePattern);
    if nameMatch.Some? { name := Trim(nameMatch.value); }

    calories := MatchNumber(text, CaloriesLabel, calories);

    protein := MatchNumber(text, ProteinLabel, protein);

    carbs := MatchNumber(text, CarbsLabel, carbs);

    fat := MatchNumber(text, FatLabel, fat);

    prepTime := MatchNumber(text, PrepTimeLabel, prepTime);

    cookTime := MatchNumber(text, CookTimeLabel, cookTime);

    var ingredientsMatch := Find(text, IngredientsPattern);
    if ingredientsMatch.Some? {
      ingredients := StripBullets(NonBlank(Split(ingredientsMatch.value, '\n')));
    }

    var instructionsMatch := Find(text, InstructionsPattern);
    if instructionsMatch.Some? {
      instructions := Trim(instructionsMatch.value);
    } else {
      var fallbackMatch := Find(text, InstructionsFallback);
      if fallbackMatch.Some? {
        instructions := Trim(RemoveWhySection(fallbackMatch.value));
      }
    }

    var whyMatch := Find(text, WhyPattern);
    if whyMatch.Some? { whyItWorks := Trim(whyMatch.value); }

    recipe := Recipe(name, calories, protein, carbs, fat, prepTime, cookTime, ingredients,
                     instructions, whyItWorks);
  }

  // ---------------------------------------------------------------- properties of the search

  /** The search returns the match at the first position where the expression matches. */
  lemma {:induction false} FindFromFirst(text: string, p: Pattern, pos: nat, q: nat)
    requires pos <= q <= |text|
    requires MatchAt(text[q..], p).Some?
    requires forall k :: pos <= k < q ==> MatchAt(text[k..], p).None?
    ensures FindFrom(text, p, pos) == MatchAt(text[q..], p)
    decreases q - pos
  {
    if pos < q {
      FindFromFirst(text, p, pos + 1, q);
    }
  }

  /** The search fails when the expression matches at no position. */
  lemma {:induction false} FindFromNone(text: string, p: Pattern, pos: nat)
    requires pos <= |text|
    requires forall k :: pos <= k <= |text| ==> MatchAt(text[k..], p).None?
    ensures FindFrom(text, p, pos).None?
    decreases |text| - pos
  {
    if pos < |text| {
      FindFromNone(text, p, pos + 1);
    }
  }

  /** Without its label anywhere in the text, an expression does not match. */
  lemma AbsentLabelNoMatch(text: string, p: Pattern)
    requires LabelFree(text, LabelOf(p))
    ensures Find(text, p).None?
  {
    FindFromNone(text, p, 0);
  }

  /** A numeric field whose label appears nowhere in the text stays 0. */
  lemma AbsentNumberLabelKeepsZero(text: string, tag: string)
    requires LabelFree(text, tag)
    ensures NumberField(text, tag) == 0
  {
    AbsentLabelNoMatch(text, NumberPattern(tag));
  }

  /** A text field whose label appears nowhere in the text stays empty. */
  lemma AbsentLabelKeepsEmpty(text: string)
    ensures LabelFree(text, RecipeNameLabel) ==> NameField(text) == ""
    ensures LabelFree(text, IngredientsLabel) ==> IngredientsField(text) == []
    ensures LabelFree(text, InstructionsLabel) ==> InstructionsField(text) == ""
    ensures LabelFree(text, WhyLabel) ==> WhyField(text) == ""
  {
    assert LabelFree(text, RecipeNameLabel) ==> NameField(text) == "" by {
      if LabelFree(text, RecipeNameLabel) { AbsentLabelNoMatch(text, NamePattern); }
    }
    assert LabelFree(text, IngredientsLabel) ==> IngredientsField(text) == [] by {
      if LabelFree(text, IngredientsLabel) { AbsentLabelNoMatch(text, IngredientsPattern); }
    }
    assert LabelFree(text, InstructionsLabel) ==> InstructionsField(text) == "" by {
      if LabelFree(text, InstructionsLabel) {
        AbsentLabelNoMatch(text, InstructionsPattern);
        AbsentLabelNoMatch(text, InstructionsFallback);
      }
    }
    if LabelFree(text, WhyLabel) { AbsentLabelNoMatch(text, WhyPattern); }
  }

  // ---------------------------------------------------------------- properties of the fields

  /** The name is a single trimmed line: it holds no line terminator. */
  lemma NameIsOneTrimmedLine(text: string)
    ensures Trimmed(ParsedRecipe(text).name)
    ensures forall k :: 0 <= k < |ParsedRecipe(text).name| ==> !IsLineTerminator(ParsedRecipe(text).name[k])
  {
    var name := ParsedRecipe(text).name;
    var m := Find(text, NamePattern);
    if m.Some? {
      forall k | 0 <= k < |name| ensures !IsLineTerminator(name[k]) {
        TrimChars(m.value, name[k]);
      }
    }
  }

  /**
   * Every ingredient entry is trimmed, and entry `k` is the `k`-th non-blank line of the captured
   * block with its bullet stripped.
   */
  lemma IngredientEntriesTrimmed(text: string)
    ensures forall k :: 0 <= k < |ParsedRecipe(text).ingredients| ==> Trimmed(ParsedRecipe(text).ingredients[k])
    ensures Find(text, IngredientsPattern).Some? ==>
      var lines := NonBlank(Split(Find(text, IngredientsPattern).value, '\n'));
      |ParsedRecipe(text).ingredients| == |lines| &&
      forall k :: 0 <= k < |lines| ==> ParsedRecipe(text).ingredients[k] == StripBullet(lines[k])
  {
  }

  /** The end of a whitespace run, from a description of the run. */
  lemma {:induction false} SkipWhitespaceAt(u: string, i: nat, j: nat)
    requires i <= j <= |u|
    requires forall k :: i <= k < j ==> IsWhitespace(u[k])
    requires j < |u| ==> !IsWhitespace(u[j])
    ensures SkipWhitespace(u, i) == j
    decreases j - i
  {
    if i < j {
      SkipWhitespaceAt(u, i + 1, j);
    }
  }

  /** The end of a digit run, from a description of the run. */
  lemma {:induction false} SkipDigitsAt(u: string, i: nat, j: nat)
    requires i <= j <= |u|
    requires forall k :: i <= k < j ==> IsDigit(u[k])
    requires j < |u| ==> !IsDigit(u[j])
    ensures SkipDigits(u, i) == j
    decreases j - i
  {
    if i < j {
      SkipDigitsAt(u, i + 1, j);
    }
  }

  /** The end of a line, from a description of the line. */
  lemma {:induction false} LineEndAt(u: string, i: nat, j: nat)
    requires i <= j <= |u|
    requires forall k :: i <= k < j ==> !IsLineTerminator(u[k])
    requires j < |u| ==> IsLineTerminator(u[j])
    ensures LineEnd(u, i) == j
    decreases j - i
  {
    if i < j {
      LineEndAt(u, i + 1, j);
    }
  }

  /** The first position a lookahead accepts, from a description of it. */
  lemma {:induction false} FirstLookaheadAt(u: string, from: nat, e: nat, look: Lookahead)
    requires from <= e <= |u|
    requires LookaheadHolds(u[e..], look)
    requires forall k :: from <= k < e ==> !LookaheadHolds(u[k..], look)
    ensures FirstLookahead(u, from, look) == Some(e)
    decreases e - from
  {
    if from < e {
      FirstLookaheadAt(u, from + 1, e, look);
    }
  }

  /**
   * A number field is the value of the digits after the first occurrence of its label,
   * when whitespace and at least one digit follow that occurrence.
   */
  lemma NumberAfterFirstLabel(text: string, tag: string, q: nat, n: nat, m: nat)
    requires q + |tag| <= n < m <= |text|
    requires StartsWithLabel(text[q..], tag)
    requires forall k :: 0 <= k < q ==> !StartsWithLabel(text[k..], tag)
    requires forall k :: q + |tag| <= k < n ==> IsWhitespace(text[k])
    requires forall k :: n <= k < m ==> IsDigit(text[k])
    requires m < |text| ==> !IsDigit(text[m])
    ensures NumberField(text, tag) == ParseDigits(text[n..m])
  {
    var u := text[q..];
    SkipWhitespaceAt(u, |tag|, n - q);
    SkipDigitsAt(u, n - q, m - q);
    assert u[n - q..m - q] == text[n..m];
    assert MatchAt(u, NumberPattern(tag)) == Some(text[n..m]);
    forall k | 0 <= k < q ensures MatchAt(text[k..], NumberPattern(tag)).None? {
      assert !StartsWithLabel(text[k..], tag);
    }
    FindFromFirst(text, NumberPattern(tag), 0, q);
  }

  /**
   * The name is the rest of the line that starts at the first non-whitespace character after
   * the first `RECIPE NAME:`, trimmed.
   */
  lemma NameAfterFirstLabel(text: string, q: nat, n: nat, e: nat)
    requires q + |RecipeNameLabel| <= n < e <= |text|
    requires StartsWithLabel(text[q..], RecipeNameLabel)
    requires forall k :: 0 <= k < q ==> !StartsWithLabel(text[k..], RecipeNameLabel)
    requires forall k :: q + |RecipeNameLabel| <= k < n ==> IsWhitespace(text[k])
    requires !IsWhitespace(text[n])
    requires forall k :: n <= k < e ==> !IsLineTerminator(text[k])
    requires e < |text| ==> IsLineTerminator(text[e])
    ensures Find(text, NamePattern) == Some(text[n..e])
    ensures NameField(text) == Trim(text[n..e])
  {
    NameMatchInText(text, q, n, e);
    FindAtFirstLabel(text, NamePattern, q);
  }

  /** The same capture, read at position `q` of the whole text. */
  lemma NameMatchInText(text: string, q: nat, n: nat, e: nat)
    requires q + |RecipeNameLabel| <= n < e <= |text|
    requires StartsWithLabel(text[q..], RecipeNameLabel)
    requires forall k :: q + |RecipeNameLabel| <= k < n ==> IsWhitespace(text[k])
    requires !IsWhitespace(text[n])
    requires forall k :: n <= k < e ==> !IsLineTerminator(text[k])
    requires e < |text| ==> IsLineTerminator(text[e])
    ensures MatchAt(text[q..], NamePattern) == Some(text[n..e])
  {
    var u := text[q..];
    forall k | |RecipeNameLabel| <= k < n - q ensures IsWhitespace(u[k]) {
      assert u[k] == text[q + k];
    }
    forall k | n - q <= k < e - q ensures !IsLineTerminator(u[k]) {
      assert u[k] == text[q + k];
    }
    NameMatchAt(u, n - q, e - q);
    assert u[n - q..e - q] == text[n..e];
  }

  /** At a `RECIPE NAME:` label, the capture is the line from the first non-whitespace character. */
  lemma NameMatchAt(u: string, n: nat, e: nat)
    requires StartsWithLabel(u, RecipeNameLabel) && |RecipeNameLabel| <= n < e <= |u|
    requires forall k :: |RecipeNameLabel| <= k < n ==> IsWhitespace(u[k])
    requires !IsWhitespace(u[n])
    requires forall k :: n <= k < e ==> !IsLineTerminator(u[k])
    requires e < |u| ==> IsLineTerminator(u[e])
    ensures MatchAt(u, NamePattern) == Some(u[n..e])
  {
    var i := |LabelOf(NamePattern)|;
    SkipWhitespaceAt(u, i, n);
    assert MatchAt(u, NamePattern) == LineCapture(u, i, n);
    LineEndAt(u, n, e);
  }

  /**
   * The rationale starts after the last newline of the whitespace that follows the first
   * `WHY THIS WORKS:` and runs to the end of the text; the field is that, trimmed.
   */
  lemma WhyAfterFirstLabel(text: string, q: nat, n: nat, m: nat)
    requires q + |WhyLabel| <= n < m <= |text|
    requires StartsWithLabel(text[q..], WhyLabel)
    requires forall k :: 0 <= k < q ==> !StartsWithLabel(text[k..], WhyLabel)
    requires forall k :: q + |WhyLabel| <= k < m ==> IsWhitespace(text[k])
    requires m < |text| ==> !IsWhitespace(text[m])
    requires text[n] == '\n' && forall k :: n < k < m ==> text[k] != '\n'
    ensures Find(text, WhyPattern) == Some(text[n + 1..])
    ensures WhyField(text) == Trim(text[n + 1..])
  {
    var u := text[q..];
    forall k | |WhyLabel| <= k < m - q ensures IsWhitespace(u[k]) {
      assert u[k] == text[q + k];
    }
    forall k | n - q < k < m - q ensures u[k] != '\n' {
      assert u[k] == text[q + k];
    }
    WhyMatchAt(u, m - q, n - q);
    assert u[n - q + 1..] == text[n + 1..];
    FindAtFirstLabel(text, WhyPattern, q);
  }

  /** At a `WHY THIS WORKS:` label, the capture starts after the last newline of the whitespace run. */
  lemma WhyMatchAt(u: string, j: nat, n: nat)
    requires StartsWithLabel(u, WhyLabel) && |WhyLabel| <= n < j <= |u|
    requires forall k :: |WhyLabel| <= k < j ==> IsWhitespace(u[k])
    requires j < |u| ==> !IsWhitespace(u[j])
    requires u[n] == '\n' && forall k :: n < k < j ==> u[k] != '\n'
    ensures MatchAt(u, WhyPattern) == Some(u[n + 1..])
  {
    var i := |LabelOf(WhyPattern)|;
    SkipWhitespaceAt(u, i, j);
    assert MatchAt(u, WhyPattern) == LazyBlock(u, i, j, EndOfInput);
    LazyBlockAtLastNewline(u, i, j, n);
  }

  /** The search finds what the pattern matches at the first occurrence of its label. */
  lemma FindAtFirstLabel(text: string, p: Pattern, q: nat)
    requires q <= |text| && MatchAt(text[q..], p).Some?
    requires forall k :: 0 <= k < q ==> !StartsWithLabel(text[k..], LabelOf(p))
    ensures Find(text, p) == MatchAt(text[q..], p)
  {
    forall k | 0 <= k < q ensures MatchAt(text[k..], p).None? {
      assert !StartsWithLabel(text[k..], LabelOf(p));
    }
    FindFromFirst(text, p, 0, q);
  }

  /** Up to the end of the input, a lazy block starts after the last newline it may start at. */
  lemma {:induction false} LazyBlockAtLastNewline(u: string, i: nat, j: nat, n: nat)
    requires i <= n <= j <= |u| && n < |u|
    requires u[n] == '\n' && forall k :: n < k <= j && k < |u| ==> u[k] != '\n'
    ensures LazyBlock(u, i, j, EndOfInput) == Some(u[n + 1..])
    decreases j
  {
    if j == n {
      FirstLookaheadAt(u, n + 1, |u|, EndOfInput);
      assert u[n + 1..|u|] == u[n + 1..];
    } else {
      LazyBlockAtLastNewline(u, i, j - 1, n);
    }
  }

  /** The rationale is everything after the newline that follows its label, up to the end of the text. */
  lemma WhyRunsToEnd(text: string)
    ensures Find(text, WhyPattern).Some? ==>
      var g := Find(text, WhyPattern).value;
      |g| < |text| && text[|text| - |g| - 1] == '\n' && text[|text| - |g|..] == g
  {
    if Find(text, WhyPattern).Some? {
      WhyFromRunsToEnd(text, 0);
    }
  }

  lemma {:induction false} WhyFromRunsToEnd(text: string, pos: nat)
    requires pos <= |text|
    requires FindFrom(text, WhyPattern, pos).Some?
    ensures var g := FindFrom(text, WhyPattern, pos).value;
      |g| < |text| && text[|text| - |g| - 1] == '\n' && text[|text| - |g|..] == g
    decreases |text| - pos
  {
    var u := text[pos..];
    var m := MatchAt(u, WhyPattern);
    if m.Some? {
      var tag := LabelOf(WhyPattern);
      LazyBlockToEnd(u, |tag|, SkipWhitespace(u, |tag|));
      assert text[|text| - |m.value|..] == u[|u| - |m.value|..];
    } else {
      WhyFromRunsToEnd(text, pos + 1);
    }
  }

  /** Up to the end of the input, a lazy block is a suffix that follows a newline. */
  lemma {:induction false} LazyBlockToEnd(u: string, i: nat, j: nat)
    requires i <= j <= |u|
    requires LazyBlock(u, i, j, EndOfInput).Some?
    ensures var g := LazyBlock(u, i, j, EndOfInput).value;
      |g| < |u| && u[|u| - |g| - 1] == '\n' && u[|u| - |g|..] == g
    decreases j
  {
    if j < |u| && u[j] == '\n' && FirstLookahead(u, j + 1, EndOfInput).Some? {
      assert FirstLookahead(u, j + 1, EndOfInput).value == |u|;
    } else {
      LazyBlockToEnd(u, i, j - 1);
    }
  }

  // ---------------------------------------------------------------- the unused fallback

  /** The primary instructions expression and the fallback succeed at exactly the same positions. */
  lemma {:induction false} LazyBlocksAgree(u: string, i: nat, j: nat)
    requires i <= j <= |u|
    ensures LazyBlock(u, i, j, WhyOrEnd).Some? <==> LazyBlock(u, i, j, EndOfInput).Some?
    decreases j
  {
    if j < |u| {
      assert LookaheadHolds(u[|u|..], WhyOrEnd) && LookaheadHolds(u[|u|..], EndOfInput);
    }
    if j > i {
      LazyBlocksAgree(u, i, j - 1);
    }
  }

  lemma {:induction false} FallbackFindAgrees(text: string, pos: nat)
    requires pos <= |text|
    ensures FindFrom(text, InstructionsPattern, pos).Some? <==> FindFrom(text, InstructionsFallback, pos).Some?
    decreases |text| - pos
  {
    var u := text[pos..];
    if StartsWithLabel(u, InstructionsLabel) {
      LazyBlocksAgree(u, |InstructionsLabel|, SkipWhitespace(u, |InstructionsLabel|));
    }
    if pos < |text| {
      FallbackFindAgrees(text, pos + 1);
    }
  }

  /**
   * The fallback expression is never used: it matches exactly when the primary one does, so
   * the instructions are the trimmed primary capture, or empty.
   */
  lemma InstructionsFallbackUnused(text: string)
    ensures Find(text, InstructionsFallback).Some? <==> Find(text, InstructionsPattern).Some?
    ensures Find(text, InstructionsPattern).None? ==> ParsedRecipe(text).instructions == ""
  {
    FallbackFindAgrees(text, 0);
  }
}
