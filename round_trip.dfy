/**
 * The prompt and the parser agree: a recipe written into the reply template of the prompt
 * (src/lib/promptBuilder.ts) is read back unchanged by the parser (src/lib/recipeParser.ts),
 * provided its fields cannot be mistaken for the template's own structure.
 */
module RoundTrip {
  import opened Text
  import opened Types
  import opened RecipeParser
  import opened PromptBuilder
  import opened Wrappers

  // ---------------------------------------------------------------- the labels

  /** A label character other than its final colon: an upper-case letter or a space. */
  predicate IsLabelChar(c: char) {
    'A' <= c <= 'Z' || c == ' '
  }

  /** Upper-case words separated by spaces, ending in its only colon. */
  predicate WellFormedLabel(tag: string) {
    |tag| >= 2 && 'A' <= tag[0] <= 'Z' && tag[|tag| - 1] == ':'
    && forall i :: 0 <= i < |tag| - 1 ==> IsLabelChar(tag[i])
  }

  predicate IsSuffixOf(a: string, b: string) {
    |a| <= |b| && b[|b| - |a|..] == a
  }

  lemma LabelsWellFormed()
    ensures forall k :: 0 <= k < |Labels| ==> WellFormedLabel(Labels[k])
  {
  }

  lemma LabelWellFormed(t: nat)
    requires t < |Labels|
    ensures WellFormedLabel(Labels[t])
  {
    LabelsWellFormed();
  }

  lemma LabelsNotSuffixesFirst()
    ensures forall j, k :: 0 <= j < 3 && 0 <= k < |Labels| && j != k ==> !IsSuffixOf(Labels[j], Labels[k])
  {
  }

  lemma LabelsNotSuffixesMiddle()
    ensures forall j, k :: 3 <= j < 6 && 0 <= k < |Labels| && j != k ==> !IsSuffixOf(Labels[j], Labels[k])
  {
  }

  lemma LabelsNotSuffixesLast()
    ensures forall j, k :: 6 <= j < |Labels| && 0 <= k < |Labels| && j != k ==> !IsSuffixOf(Labels[j], Labels[k])
  {
  }

  /** No label is the tail of another label. */
  lemma LabelNotSuffix(j: nat, k: nat)
    requires j < |Labels| && k < |Labels| && j != k
    ensures !IsSuffixOf(Labels[j], Labels[k])
  {
    LabelsNotSuffixesFirst();
    LabelsNotSuffixesMiddle();
    LabelsNotSuffixesLast();
  }

  /** The text holds none of the ten labels, in any case. */
  predicate NoLabels(s: string) {
    forall k :: 0 <= k < |Labels| ==> LabelFree(s, Labels[k])
  }

  // ---------------------------------------------------------------- where a label can occur

  /** An occurrence of a label ends before any newline that follows its start. */
  lemma NewlineStopsLabel(s: string, p: nat, m: nat, tag: string)
    requires WellFormedLabel(tag)
    requires p <= m < |s| && s[m] == '\n'
    requires StartsWithLabel(s[p..], tag)
    ensures p + |tag| <= m
  {
  }

  /** An occurrence inside a window of `s` is an occurrence in that window. */
  lemma LabelInWindow(s: string, a: nat, b: nat, p: nat, tag: string)
    requires a <= p && p + |tag| <= b <= |s|
    requires StartsWithLabel(s[p..], tag)
    ensures StartsWithLabel(s[a..b][p - a..], tag)
  {
    forall i | 0 <= i < |tag| ensures CharMatches(s[a..b][p - a..][i], tag[i]) {
      assert s[a..b][p - a..][i] == s[p..][i];
    }
  }

  /** Two label-free texts joined by a newline stay label-free. */
  lemma NewlineJoinLabelFree(a: string, b: string, tag: string)
    requires WellFormedLabel(tag)
    requires LabelFree(a, tag) && LabelFree(b, tag)
    ensures LabelFree(a + "\n" + b, tag)
  {
    var s := a + "\n" + b;
    forall p | 0 <= p <= |s| ensures !StartsWithLabel(s[p..], tag) {
      if p > |a| {
        assert s[p..] == b[p - |a| - 1..];
      } else {
        assert s[0..|a|] == a;
        if StartsWithLabel(s[p..], tag) {
          NewlineStopsLabel(s, p, |a|, tag);
          LabelInWindow(s, 0, |a|, p, tag);
        }
      }
    }
  }

  /** Label-free lines joined by newlines stay label-free. */
  lemma {:induction false} JoinLabelFree(xs: seq<string>, tag: string)
    requires WellFormedLabel(tag)
    requires forall i :: 0 <= i < |xs| ==> LabelFree(xs[i], tag)
    ensures LabelFree(Join(xs, "\n"), tag)
  {
    if |xs| >= 2 {
      JoinLabelFree(xs[1..], tag);
      NewlineJoinLabelFree(xs[0], Join(xs[1..], "\n"), tag);
    }
  }

  /** A label occurs inside another label only as its tail. */
  lemma LabelAloneFree(x: string, tag: string)
    requires WellFormedLabel(x) && WellFormedLabel(tag)
    requires !IsSuffixOf(tag, x)
    ensures LabelFree(x, tag)
  {
    forall p | 0 <= p <= |x| ensures !StartsWithLabel(x[p..], tag) {
      if StartsWithLabel(x[p..], tag) {
        LabelInsideLabel(x, p, tag);
      }
    }
  }

  /** An occurrence of a label lying within another label ends at its colon and spells its tail. */
  lemma LabelInsideLabel(x: string, p: nat, tag: string)
    requires WellFormedLabel(x) && WellFormedLabel(tag)
    requires p + |tag| <= |x| && StartsWithLabel(x[p..], tag)
    ensures IsSuffixOf(tag, x)
  {
    var e := p + |tag| - 1;
    assert x[p..][|tag| - 1] == x[e];
    assert CharMatches(x[e], ':');
    assert e == |x| - 1;
    forall i | 0 <= i < |tag| ensures x[p + i] == tag[i] {
      assert x[p..][i] == x[p + i];
      assert CharMatches(x[p + i], tag[i]);
    }
    assert x[|x| - |tag|..] == tag;
  }

  /** A label line `X v` holds no other label when `v` holds none. */
  lemma LabelLineFree(x: string, v: string, tag: string)
    requires WellFormedLabel(x) && WellFormedLabel(tag)
    requires !IsSuffixOf(tag, x)
    requires LabelFree(v, tag)
    ensures LabelFree(x + " " + v, tag)
  {
    var s := x + " " + v;
    forall p | 0 <= p <= |s| ensures !StartsWithLabel(s[p..], tag) {
      if p > |x| {
        assert s[p..] == v[p - |x| - 1..];
      } else {
        assert s[0..|x|] == x && s[|x|] == ' ';
        if StartsWithLabel(s[p..], tag) && p + |tag| <= |x| {
          LabelInWindow(s, 0, |x|, p, tag);
          LabelInsideLabel(x, p, tag);
        }
      }
    }
  }

  /** A bullet line `- v` holds no label when `v` holds none. */
  lemma BulletLineFree(v: string, tag: string)
    requires WellFormedLabel(tag)
    requires LabelFree(v, tag)
    ensures LabelFree("- " + v, tag)
  {
    var s := "- " + v;
    forall p | 2 <= p <= |s| ensures s[p..] == v[p - 2..] {
    }
  }

  /** A run of digits holds no label: a label needs a colon. */
  lemma DigitsLabelFree(ds: string, tag: string)
    requires WellFormedLabel(tag)
    requires AllDigits(ds)
    ensures LabelFree(ds, tag)
  {
    forall p | 0 <= p <= |ds| ensures !StartsWithLabel(ds[p..], tag) {
      if p + |tag| <= |ds| {
        assert ds[p..][|tag| - 1] == ds[p + |tag| - 1];
      }
    }
  }

  // ---------------------------------------------------------------- one expression on one template line

  /**
   * When no line before line `m` holds the label of `p`, the search finds what `p` matches at
   * the start of line `m`.
   */
  lemma FindAtLine(xs: seq<string>, m: nat, p: Pattern)
    requires m < |xs| && WellFormedLabel(LabelOf(p))
    requires forall i :: 0 <= i < m ==> LabelFree(xs[i], LabelOf(p))
    requires MatchAt(Join(xs[m..], "\n"), p).Some?
    ensures Find(Join(xs, "\n"), p) == MatchAt(Join(xs[m..], "\n"), p)
  {
    if m == 0 {
      assert xs[0..] == xs;
      FindFromFirst(Join(xs, "\n"), p, 0, 0);
    } else {
      JoinAt(xs, "\n", m);
      JoinLabelFree(xs[..m], LabelOf(p));
      FindAfterLine(Join(xs[..m], "\n"), Join(xs[m..], "\n"), p);
    }
  }

  /** Text after a label-free line is searched as if the line were not there. */
  lemma FindAfterLine(a: string, rest: string, p: Pattern)
    requires WellFormedLabel(LabelOf(p)) && LabelFree(a, LabelOf(p))
    requires MatchAt(rest, p).Some?
    ensures Find(a + "\n" + rest, p) == MatchAt(rest, p)
  {
    var s := a + "\n" + rest;
    var q := |a| + 1;
    assert s[q..] == rest;
    assert s[0..|a|] == a;
    NoMatchInFirstLine(s, |a|, p);
    FindFromFirst(s, p, 0, q);
  }

  /** No match starts in a label-free first line of `s` or at the newline that ends it. */
  lemma NoMatchInFirstLine(s: string, n: nat, p: Pattern)
    requires n < |s| && s[n] == '\n' && WellFormedLabel(LabelOf(p))
    requires LabelFree(s[0..n], LabelOf(p))
    ensures forall k :: 0 <= k <= n ==> MatchAt(s[k..], p).None?
  {
    var tag := LabelOf(p);
    forall k | 0 <= k <= n ensures MatchAt(s[k..], p).None? {
      if StartsWithLabel(s[k..], tag) {
        NewlineStopsLabel(s, k, n, tag);
        LabelInWindow(s, 0, n, k, tag);
      }
    }
  }

  /** `RECIPE NAME: v` followed by a line break captures `v`. */
  lemma NameLineMatch(u: string, v: string, rest: string)
    requires u == RecipeNameLabel + " " + v + rest
    requires v != [] && Trimmed(v)
    requires forall k :: 0 <= k < |v| ==> !IsLineTerminator(v[k])
    requires rest != [] && rest[0] == '\n'
    ensures MatchAt(u, NamePattern) == Some(v)
  {
    var i := |RecipeNameLabel|;
    SkipWhitespaceAt(u, i, i + 1);
    LineEndAt(u, i + 1, i + 1 + |v|);
    assert u[i + 1..i + 1 + |v|] == v;
  }

  /** `LABEL: ds` followed by a line break captures the digits `ds`. */
  lemma NumberLineMatch(u: string, tag: string, ds: string, rest: string)
    requires u == tag + " " + ds + rest
    requires ds != [] && AllDigits(ds)
    requires rest != [] && rest[0] == '\n'
    ensures MatchAt(u, NumberPattern(tag)) == Some(ds)
  {
    var i := |tag|;
    SkipWhitespaceAt(u, i, i + 1);
    SkipDigitsAt(u, i + 1, i + 1 + |ds|);
    assert u[i + 1..i + 1 + |ds|] == ds;
  }

  /** `LABEL:` alone on its line, then a block that its lookahead ends at its last character. */
  lemma BlockMatch(u: string, p: Pattern, look: Lookahead, body: string, rest: string)
    requires (p == IngredientsPattern && look == BlankLineOrInstructions)
          || (p == InstructionsPattern && look == WhyOrEnd)
          || (p == WhyPattern && look == EndOfInput)
    requires u == LabelOf(p) + "\n" + body + rest
    requires (body == [] && rest == []) || (body != [] && !IsWhitespace(body[0]))
    requires FirstLookahead(u, |LabelOf(p)| + 1, look) == Some(|LabelOf(p)| + 1 + |body|)
    ensures MatchAt(u, p) == Some(body)
  {
    var tag := LabelOf(p);
    var i := |tag|;
    assert u[..i] == tag;
    assert StartsWithLabel(u, tag) by {
      forall k | 0 <= k < i ensures CharMatches(u[k], tag[k]) {
        assert u[k] == u[..i][k];
      }
    }
    SkipWhitespaceAt(u, i, i + 1);
    assert u[i] == '\n';
    assert !(i + 1 < |u| && u[i + 1] == '\n');
    assert LazyBlock(u, i, i + 1, look) == LazyBlock(u, i, i, look);
    assert u[i + 1..i + 1 + |body|] == body;
  }

  /** A text where every line break is followed by a character other than a line break. */
  predicate NoBlankLine(s: string) {
    forall k :: 0 <= k < |s| && s[k] == '\n' ==> k + 1 < |s| && s[k + 1] != '\n'
  }

  /** The ingredient block ends at the blank line after it. */
  lemma IngredientsLookahead(u: string, body: string, rest: string)
    requires u == IngredientsLabel + "\n" + body + rest
    requires NoBlankLine(body) && LabelFree(body, InstructionsLabel)
    requires |rest| >= 2 && rest[0] == '\n' && rest[1] == '\n'
    ensures FirstLookahead(u, |IngredientsLabel| + 1, BlankLineOrInstructions)
         == Some(|IngredientsLabel| + 1 + |body|)
  {
    LabelWellFormed(8);
    var s0 := |IngredientsLabel| + 1;
    var e := s0 + |body|;
    assert u[s0..e] == body;
    assert u[e] == '\n' && u[e + 1] == '\n';
    forall k | s0 <= k < e ensures !LookaheadHolds(u[k..], BlankLineOrInstructions) {
      assert u[k] == body[k - s0];
      if k + 1 < e {
        assert u[k + 1] == body[k + 1 - s0];
      }
      if StartsWithLabel(u[k..], InstructionsLabel) {
        NewlineStopsLabel(u, k, e, InstructionsLabel);
        LabelInWindow(u, s0, e, k, InstructionsLabel);
      }
    }
    FirstLookaheadAt(u, s0, e, BlankLineOrInstructions);
  }

  /** The blank line and the rationale's label that follow the instructions in the template. */
  lemma WhyAheadOfTemplateTail(why: string)
    ensures WhyAhead("\n" + ("" + "\n" + (WhyLabel + "\n" + why)))
  {
    var w := "\n" + ("" + "\n" + (WhyLabel + "\n" + why));
    assert w[0] == '\n' && w[1] == '\n' && w[2] == 'W';
    assert w[2..] == WhyLabel + "\n" + why;
    assert NewlineRunEnd(w, 0) == 2;
  }

  /** Inside a label-free block that ends before a line break, no `\n+WHY THIS WORKS:` starts. */
  lemma NoWhyAheadInside(u: string, s0: nat, e: nat, k: nat)
    requires s0 <= k < e < |u| && u[e] == '\n' && u[e - 1] != '\n'
    requires LabelFree(u[s0..e], WhyLabel)
    ensures !WhyAhead(u[k..])
  {
    var v := u[k..];
    assert v[e - 1 - k] == u[e - 1];
    if WhyAhead(v) {
      LabelWellFormed(9);
      var r := NewlineRunEnd(v, 0);
      assert v[r..] == u[k + r..];
      NewlineStopsLabel(u, k + r, e, WhyLabel);
      LabelInWindow(u, s0, e, k + r, WhyLabel);
    }
  }

  /** The instructions end where the rationale's label, after a run of line breaks, begins. */
  lemma InstructionsLookahead(u: string, body: string, rest: string)
    requires u == InstructionsLabel + "\n" + body + rest
    requires body != [] && !IsWhitespace(body[|body| - 1])
    requires LabelFree(body, WhyLabel)
    requires WhyAhead(rest)
    ensures FirstLookahead(u, |InstructionsLabel| + 1, WhyOrEnd) == Some(|InstructionsLabel| + 1 + |body|)
  {
    var s0 := |InstructionsLabel| + 1;
    var e := s0 + |body|;
    assert u[s0..e] == body;
    assert u[e..] == rest;
    forall k | s0 <= k < e ensures !LookaheadHolds(u[k..], WhyOrEnd) {
      NoWhyAheadInside(u, s0, e, k);
    }
    FirstLookaheadAt(u, s0, e, WhyOrEnd);
  }

  /** The rationale runs to the end of the text. */
  lemma WhyLookahead(u: string, body: string)
    requires u == WhyLabel + "\n" + body
    ensures FirstLookahead(u, |WhyLabel| + 1, EndOfInput) == Some(|u|)
  {
    FirstLookaheadAt(u, |WhyLabel| + 1, |u|, EndOfInput);
  }

  // ---------------------------------------------------------------- the ingredient list

  /** The ingredient lines of the template: `- ` before each entry. */
  function Bullets(items: seq<string>): (r: seq<string>)
    ensures |r| == |items|
    ensures forall k :: 0 <= k < |r| ==> r[k] == "- " + items[k]
  {
    if items == [] then [] else ["- " + items[0]] + Bullets(items[1..])
  }

  /** Lines that each start with a dash and hold no line break, joined by `\n`, hold no blank line. */
  lemma {:induction false} DashLinesShape(xs: seq<string>)
    requires |xs| >= 1
    requires forall i :: 0 <= i < |xs| ==> xs[i] != [] && xs[i][0] == '-' && '\n' !in xs[i]
    ensures Join(xs, "\n") != [] && Join(xs, "\n")[0] == '-'
    ensures NoBlankLine(Join(xs, "\n"))
  {
    if |xs| >= 2 {
      DashLinesShape(xs[1..]);
      var a := xs[0];
      var b := Join(xs[1..], "\n");
      var s := a + "\n" + b;
      forall k | 0 <= k < |s| && s[k] == '\n' ensures k + 1 < |s| && s[k + 1] != '\n' {
        if k > |a| {
          assert s[k] == b[k - |a| - 1];
          assert k + 1 < |s| ==> s[k + 1] == b[k - |a|];
        }
      }
    }
  }

  /** A non-blank line survives the filter. */
  lemma {:induction false} NonBlankKeepsAll(lines: seq<string>)
    requires forall k :: 0 <= k < |lines| ==> Trim(lines[k]) != []
    ensures NonBlank(lines) == lines
  {
    if lines != [] {
      assert Trim(lines[0]) != [];
      NonBlankKeepsAll(lines[1..]);
      assert NonBlank(lines) == [lines[0]] + NonBlank(lines[1..]);
      assert lines == [lines[0]] + lines[1..];
    }
  }

  /** A bullet line starts with its dash, so it is not blank. */
  lemma BulletLineShape(line: string, v: string)
    requires line == "- " + v && '\n' !in v
    ensures line != [] && line[0] == '-' && '\n' !in line
    ensures Trim(line) != []
  {
    assert !IsWhitespace(line[0]);
  }

  /** Stripping the bullet of `- v` gives back a trimmed `v`. */
  lemma StripBulletOfBullet(line: string, v: string)
    requires line == "- " + v && Trimmed(v)
    ensures StripBullet(line) == v
  {
    assert line != [] && line[0] == '-';
    var w := line[1..];
    assert w == " " + v && w[1..] == v;
    assert TrimStart(w) == TrimStart(v) == v;
  }

  /** The parser reads the rendered ingredient list back entry by entry. */
  lemma IngredientLinesOfBullets(items: seq<string>)
    requires |items| >= 1
    requires forall k :: 0 <= k < |items| ==> Trimmed(items[k]) && '\n' !in items[k]
    ensures IngredientLines(Join(Bullets(items), "\n")) == items
  {
    var xs := Bullets(items);
    forall k | 0 <= k < |xs| ensures '\n' !in xs[k] && Trim(xs[k]) != [] {
      BulletLineShape(xs[k], items[k]);
    }
    var block := Join(xs, "\n");
    SplitJoin(xs, '\n');
    assert Split(block, '\n') == xs;
    NonBlankKeepsAll(xs);
    StripBulletsOfBullets(xs, items);
  }

  lemma StripBulletsOfBullets(xs: seq<string>, items: seq<string>)
    requires |xs| == |items|
    requires forall k :: 0 <= k < |items| ==> xs[k] == "- " + items[k] && Trimmed(items[k])
    ensures StripBullets(xs) == items
  {
    forall k | 0 <= k < |items| ensures StripBullets(xs)[k] == items[k] {
      StripBulletOfBullet(xs[k], items[k]);
    }
  }

  // ---------------------------------------------------------------- a recipe in the template

  /** The slots of the reply template filled from a recipe. */
  function ResponseSlots(r: Recipe): (slots: seq<string>)
    ensures |slots| == 10
  {
    [r.name, NatToString(r.calories), NatToString(r.protein), NatToString(r.carbs),
     NatToString(r.fat), NatToString(r.prepTime), NatToString(r.cookTime),
     Join(Bullets(r.ingredients), "\n"), r.instructions, r.whyItWorks]
  }

  /** The reply the prompt asks for, written out for a recipe. */
  function RenderRecipe(r: Recipe): string {
    FillTemplate(ResponseSlots(r))
  }

  /** The six numbers in template order. */
  function Numbers(r: Recipe): seq<nat> {
    [r.calories, r.protein, r.carbs, r.fat, r.prepTime, r.cookTime]
  }

  /**
   * A recipe the template can carry without ambiguity: the name is one non-empty trimmed line,
   * there is at least one ingredient and each is a trimmed line, the instructions are non-empty
   * and trimmed, the rationale is trimmed, and no field holds a label.
   */
  predicate Renderable(r: Recipe) {
    && r.name != [] && Trimmed(r.name) && NoLabels(r.name)
    && (forall k :: 0 <= k < |r.name| ==> !IsLineTerminator(r.name[k]))
    && |r.ingredients| >= 1
    && (forall k :: 0 <= k < |r.ingredients| ==>
          Trimmed(r.ingredients[k]) && '\n' !in r.ingredients[k] && NoLabels(r.ingredients[k]))
    && r.instructions != [] && Trimmed(r.instructions) && NoLabels(r.instructions)
    && Trimmed(r.whyItWorks) && NoLabels(r.whyItWorks)
  }

  /** The ingredient block holds no label. */
  lemma BulletBlockLabelFree(r: Recipe, t: nat)
    requires Renderable(r) && t < |Labels|
    ensures LabelFree(Join(Bullets(r.ingredients), "\n"), Labels[t])
  {
    LabelWellFormed(t);
    var xs := Bullets(r.ingredients);
    forall i | 0 <= i < |xs| ensures LabelFree(xs[i], Labels[t]) {
      BulletLineFree(r.ingredients[i], Labels[t]);
    }
    JoinLabelFree(xs, Labels[t]);
  }

  /** Every template line before the line of label `t` is free of that label. */
  lemma LineLabelFree(r: Recipe, i: nat, t: nat)
    requires Renderable(r) && t < |Labels| && i < LabelLines[t]
    ensures LabelFree(TemplateLines(ResponseSlots(r))[i], Labels[t])
  {
    if i <= 6 {
      SlotLineLabelFree(r, i, t);
    } else if i == 8 || i == 11 {
      HeadingLineLabelFree(r, i, t);
    } else if i == 9 {
      BulletBlockLabelFree(r, t);
    } else if i == 12 {
      assert LabelFree(r.instructions, Labels[t]);
    }
  }

  /** A labelled line (name or number) before the line of label `t` is free of that label. */
  lemma SlotLineLabelFree(r: Recipe, i: nat, t: nat)
    requires Renderable(r) && t < |Labels| && i <= 6 && i < LabelLines[t]
    ensures LabelFree(TemplateLines(ResponseSlots(r))[i], Labels[t])
  {
    var slots := ResponseSlots(r);
    var tag := Labels[t];
    LabelWellFormed(t);
    LabelWellFormed(i);
    LabelNotSuffix(t, i);
    if i == 0 {
      assert LabelFree(slots[0], tag);
    } else {
      DigitsLabelFree(slots[i], tag);
    }
    assert TemplateLines(slots)[i] == Labels[i] + " " + slots[i];
    LabelLineFree(Labels[i], slots[i], tag);
  }

  /** A heading line (`INGREDIENTS:` or `INSTRUCTIONS:`) before the line of label `t` is free of that label. */
  lemma HeadingLineLabelFree(r: Recipe, i: nat, t: nat)
    requires Renderable(r) && t < |Labels| && (i == 8 || i == 11) && i < LabelLines[t]
    ensures LabelFree(TemplateLines(ResponseSlots(r))[i], Labels[t])
  {
    var j := if i == 8 then 7 else 8;
    LabelWellFormed(t);
    LabelWellFormed(j);
    LabelNotSuffix(t, j);
    assert TemplateLines(ResponseSlots(r))[i] == Labels[j];
    LabelAloneFree(Labels[j], Labels[t]);
  }

  /** Every template line before the line of label `t` is free of that label. */
  lemma LinesBeforeLabelFree(r: Recipe, t: nat)
    requires Renderable(r) && t < |Labels|
    ensures forall i :: 0 <= i < LabelLines[t] ==> LabelFree(TemplateLines(ResponseSlots(r))[i], Labels[t])
  {
    forall i | 0 <= i < LabelLines[t] ensures LabelFree(TemplateLines(ResponseSlots(r))[i], Labels[t]) {
      LineLabelFree(r, i, t);
    }
  }

  // ---------------------------------------------------------------- reading the rendered recipe back

  lemma AppendAssoc(a: string, b: string, c: string)
    ensures a + (b + c) == a + b + c
  {
  }

  /** The name is read back from the first line of the template. */
  lemma NameRoundTrip(r: Recipe)
    requires Renderable(r)
    ensures NameField(RenderRecipe(r)) == r.name
  {
    var slots := ResponseSlots(r);
    var lines := TemplateLines(slots);
    FillTemplateIsJoin(slots);
    var u := Join(lines, "\n");
    var j := Join(lines[1..], "\n");
    assert u == lines[0] + "\n" + j;
    assert lines[0] == RecipeNameLabel + " " + r.name;
    AppendAssoc(RecipeNameLabel + " " + r.name, "\n", j);
    NameLineMatch(u, r.name, "\n" + j);
    assert lines[0..] == lines;
    LabelWellFormed(0);
    FindAtLine(lines, 0, NamePattern);
  }

  /** Each number is read back from its own line of the template. */
  lemma NumberRoundTrip(r: Recipe, t: nat)
    requires Renderable(r) && 1 <= t <= 6
    ensures NumberField(RenderRecipe(r), Labels[t]) == Numbers(r)[t - 1]
  {
    var slots := ResponseSlots(r);
    var lines := TemplateLines(slots);
    FillTemplateIsJoin(slots);
    JoinStep(lines, t);
    var ds := slots[t];
    assert ds == NatToString(Numbers(r)[t - 1]);
    var j := Join(lines[t + 1..], "\n");
    var u := Join(lines[t..], "\n");
    assert lines[t] == Labels[t] + " " + ds;
    AppendAssoc(Labels[t] + " " + ds, "\n", j);
    NumberLineMatch(u, Labels[t], ds, "\n" + j);
    LabelWellFormed(t);
    LinesBeforeLabelFree(r, t);
    FindAtLine(lines, t, NumberPattern(Labels[t]));
    ParseNatToString(Numbers(r)[t - 1]);
  }

  /** The template from the ingredient label on: the label, its line, the block, a blank line. */
  lemma IngredientsLineShape(r: Recipe) returns (rest: string)
    ensures Join(TemplateLines(ResponseSlots(r))[8..], "\n")
         == IngredientsLabel + "\n" + Join(Bullets(r.ingredients), "\n") + rest
    ensures |rest| >= 2 && rest[0] == '\n' && rest[1] == '\n'
  {
    var lines := TemplateLines(ResponseSlots(r));
    JoinStep(lines, 8);
    JoinStep(lines, 9);
    JoinStep(lines, 10);
    var block := Join(Bullets(r.ingredients), "\n");
    var j10 := Join(lines[10..], "\n");
    rest := "\n" + j10;
    assert lines[8] == IngredientsLabel && lines[9] == block && lines[10] == "";
    AppendAssoc(block, "\n", j10);
    AppendAssoc(IngredientsLabel + "\n", block, rest);
  }

  /** The ingredient expression, tried at the ingredient label, captures the bullet block. */
  lemma IngredientsLineMatch(r: Recipe)
    requires Renderable(r)
    ensures MatchAt(Join(TemplateLines(ResponseSlots(r))[8..], "\n"), IngredientsPattern)
         == Some(Join(Bullets(r.ingredients), "\n"))
  {
    var u := Join(TemplateLines(ResponseSlots(r))[8..], "\n");
    var xs := Bullets(r.ingredients);
    var block := Join(xs, "\n");
    var rest := IngredientsLineShape(r);
    forall i | 0 <= i < |xs| ensures xs[i] != [] && xs[i][0] == '-' && '\n' !in xs[i] {
      BulletLineShape(xs[i], r.ingredients[i]);
    }
    DashLinesShape(xs);
    BulletBlockLabelFree(r, 8);
    IngredientsLookahead(u, block, rest);
    BlockMatch(u, IngredientsPattern, BlankLineOrInstructions, block, rest);
  }

  /** The ingredient list is read back from the block under its label. */
  lemma IngredientsRoundTrip(r: Recipe)
    requires Renderable(r)
    ensures IngredientsField(RenderRecipe(r)) == r.ingredients
  {
    var slots := ResponseSlots(r);
    var lines := TemplateLines(slots);
    FillTemplateIsJoin(slots);
    IngredientsLineMatch(r);
    LabelWellFormed(7);
    LinesBeforeLabelFree(r, 7);
    FindAtLine(lines, 8, IngredientsPattern);
    IngredientLinesOfBullets(r.ingredients);
  }

  /** The instructions are read back from the block under their label, up to the rationale. */
  lemma InstructionsRoundTrip(r: Recipe)
    requires Renderable(r)
    ensures InstructionsField(RenderRecipe(r)) == r.instructions
  {
    var slots := ResponseSlots(r);
    var lines := TemplateLines(slots);
    FillTemplateIsJoin(slots);
    InstructionsLineMatch(r);
    LabelWellFormed(8);
    LinesBeforeLabelFree(r, 8);
    FindAtLine(lines, 11, InstructionsPattern);
  }

  /** At the instructions line, the primary expression captures the instructions and stops before the blank line. */
  lemma InstructionsLineMatch(r: Recipe)
    requires Renderable(r)
    ensures MatchAt(Join(TemplateLines(ResponseSlots(r))[11..], "\n"), InstructionsPattern) == Some(r.instructions)
  {
    var slots := ResponseSlots(r);
    var lines := TemplateLines(slots);
    JoinStep(lines, 11);
    JoinStep(lines, 12);
    JoinStep(lines, 13);
    JoinStep(lines, 14);
    assert lines[15..] == [r.whyItWorks];
    var body := r.instructions;
    var j13 := Join(lines[13..], "\n");
    var rest := "\n" + j13;
    var u := Join(lines[11..], "\n");
    AppendAssoc(body, "\n", j13);
    AppendAssoc(InstructionsLabel + "\n", body, rest);
    assert u == InstructionsLabel + "\n" + body + rest;
    assert rest == "\n" + ("" + "\n" + (WhyLabel + "\n" + r.whyItWorks));
    assert LabelFree(body, Labels[9]);
    WhyAheadOfTemplateTail(r.whyItWorks);
    InstructionsLookahead(u, body, rest);
    BlockMatch(u, InstructionsPattern, WhyOrEnd, body, rest);
  }

  /** The rationale is read back from the last line of the template. */
  lemma WhyRoundTrip(r: Recipe)
    requires Renderable(r)
    ensures WhyField(RenderRecipe(r)) == r.whyItWorks
  {
    var slots := ResponseSlots(r);
    var lines := TemplateLines(slots);
    FillTemplateIsJoin(slots);
    JoinStep(lines, 14);
    assert lines[15..] == [r.whyItWorks];
    var body := r.whyItWorks;
    var u := Join(lines[14..], "\n");
    assert u == WhyLabel + "\n" + body + [];
    WhyLookahead(u, body);
    BlockMatch(u, WhyPattern, EndOfInput, body, []);
    LabelWellFormed(9);
    LinesBeforeLabelFree(r, 9);
    FindAtLine(lines, 14, WhyPattern);
  }

  /**
   * A recipe written into the reply template that the prompt asks for is parsed back to the
   * same recipe, field for field.
   */
  lemma RenderedRecipeParsesBack(r: Recipe)
    requires Renderable(r)
    ensures ParsedRecipe(RenderRecipe(r)) == r
  {
    NameRoundTrip(r);
    NumberRoundTrip(r, 1);
    NumberRoundTrip(r, 2);
    NumberRoundTrip(r, 3);
    NumberRoundTrip(r, 4);
    NumberRoundTrip(r, 5);
    NumberRoundTrip(r, 6);
    IngredientsRoundTrip(r);
    InstructionsRoundTrip(r);
    WhyRoundTrip(r);
  }

  // ---------------------------------------------------------------- a rationale that is not on its own line

  /**
   * When no run of line breaks followed by the rationale's label comes after the instructions
   * label, the instructions run to the end of the text, so a `WHY THIS WORKS:` on the same line
   * as an instruction ends up inside the instructions.
   */
  lemma InstructionsSwallowInlineWhy(u: string, body: string)
    requires u == InstructionsLabel + "\n" + body
    requires body != [] && !IsWhitespace(body[0])
    requires forall k :: 0 <= k < |body| ==> !WhyAhead(body[k..])
    ensures InstructionsField(u) == Trim(body)
  {
    var s0 := |InstructionsLabel| + 1;
    forall k | s0 <= k < |u| ensures !LookaheadHolds(u[k..], WhyOrEnd) {
      assert u[k..] == body[k - s0..];
    }
    FirstLookaheadAt(u, s0, |u|, WhyOrEnd);
    assert u == InstructionsLabel + "\n" + body + [];
    BlockMatch(u, InstructionsPattern, WhyOrEnd, body, []);
    FindFromFirst(u, InstructionsPattern, 0, 0);
    assert u[0..] == u;
  }
}
