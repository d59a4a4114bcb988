/**
 * The recipe-generation endpoint: the request is validated against the preferences schema,
 * a prompt is built, and the upstream model is asked for a recipe, model after model and
 * attempt after attempt with exponential backoff, until one reply carries text. Failures are
 * mapped to a message for the user with suggestions and technical details.
 *
 * The network is abstracted: `Upstream` gives the outcome of each attempt (a reply with a
 * status and a body, an abort after the request timeout, or a thrown error), and the method
 * records the sleeps it would take and the attempts it makes.
 */
module GenerateRecipe {
  import opened Wrappers
  import opened Text
  import opened Types
  import opened RecipeParser
  import opened PromptBuilder

  // ================================================================ request validation

  /** A request body after JSON decoding, with the field types the schema asks for. */
  datatype RawPreferences = RawPreferences(
    primaryGoal: string,
    maxCalories: int,
    minProtein: int,
    prepTime: int,
    dietaryRestrictions: Option<seq<string>>,
    allergies: Option<string>,
    equipment: seq<string>)

  /** The schema fields that carry a constraint beyond their type. */
  datatype Field = PrimaryGoal | MaxCalories | MinProtein | PrepTime

  /** The path a validation issue reports. */
  function FieldName(f: Field): string {
    match f
    case PrimaryGoal => "primaryGoal"
    case MaxCalories => "maxCalories"
    case MinProtein => "minProtein"
    case PrepTime => "prepTime"
  }

  datatype IssueKind = InvalidEnum | TooSmall(minimum: int) | TooBig(maximum: int)

  /** One `{field, message}` entry of a 400 response; the message is described by its kind. */
  datatype Issue = Issue(field: Field, kind: IssueKind)

  const GoalNames: seq<string> := ["weight-loss", "muscle-gain", "maintenance", "quick-easy"]

  /** The enum check on `primaryGoal`. */
  function ParseGoal(s: string): (g: Option<Goal>)
    ensures g.Some? <==> s in GoalNames
    ensures g.Some? ==> GoalName(g.value) == s
  {
    if s == "weight-loss" then Some(WeightLoss)
    else if s == "muscle-gain" then Some(MuscleGain)
    else if s == "maintenance" then Some(Maintenance)
    else if s == "quick-easy" then Some(QuickEasy)
    else None
  }

  /** Every goal is accepted under its own name. */
  lemma ParseGoalName(g: Goal)
    ensures ParseGoal(GoalName(g)) == Some(g)
  {
  }

  /** The inclusive lower bound of a numeric field. */
  function Minimum(f: Field): int
    requires f != PrimaryGoal
  {
    match f
    case MaxCalories => 200
    case MinProtein => 10
    case PrepTime => 10
  }

  /** The inclusive upper bound of a numeric field. */
  function Maximum(f: Field): int
    requires f != PrimaryGoal
  {
    match f
    case MaxCalories => 1500
    case MinProtein => 100
    case PrepTime => 120
  }

  function NumberOf(raw: RawPreferences, f: Field): int
    requires f != PrimaryGoal
  {
    match f
    case MaxCalories => raw.maxCalories
    case MinProtein => raw.minProtein
    case PrepTime => raw.prepTime
  }

  /** The inputs the schema accepts, stated field by field. */
  predicate Acceptable(raw: RawPreferences) {
    && raw.primaryGoal in GoalNames
    && 200 <= raw.maxCalories <= 1500
    && 10 <= raw.minProtein <= 100
    && 10 <= raw.prepTime <= 120
  }

  /** `issue` describes a constraint that `raw` breaks. */
  predicate Violates(raw: RawPreferences, issue: Issue) {
    match issue.kind
    case InvalidEnum =>
      issue.field == PrimaryGoal && raw.primaryGoal !in GoalNames
    case TooSmall(lo) =>
      issue.field != PrimaryGoal && lo == Minimum(issue.field) && NumberOf(raw, issue.field) < lo
    case TooBig(hi) =>
      issue.field != PrimaryGoal && hi == Maximum(issue.field) && NumberOf(raw, issue.field) > hi
  }

  /** The preferences an accepted body turns into: defaults for the two optional fields. */
  predicate Accepted(raw: RawPreferences, prefs: UserPreferences) {
    && GoalName(prefs.primaryGoal) == raw.primaryGoal
    && prefs.maxCalories == raw.maxCalories
    && prefs.minProtein == raw.minProtein
    && prefs.prepTime == raw.prepTime
    && (raw.dietaryRestrictions.None? ==> prefs.dietaryRestrictions == [])
    && (raw.dietaryRestrictions.Some? ==> prefs.dietaryRestrictions == raw.dietaryRestrictions.value)
    && (raw.allergies.None? ==> prefs.allergies == "")
    && (raw.allergies.Some? ==> prefs.allergies == raw.allergies.value)
    && prefs.equipment == raw.equipment
  }

  datatype Validation = Valid(prefs: UserPreferences) | Invalid(issues: seq<Issue>)

  /** The constrained fields in the order the schema declares them, which is the order of its issues. */
  const SchemaFields: seq<Field> := [PrimaryGoal, MaxCalories, MinProtein, PrepTime]

  /** `f` meets its constraint in `raw`. */
  predicate Satisfies(raw: RawPreferences, f: Field) {
    if f == PrimaryGoal then raw.primaryGoal in GoalNames
    else Minimum(f) <= NumberOf(raw, f) <= Maximum(f)
  }

  /** The checks of one field: the enum check, or the `min` and `max` checks of a number. */
  function FieldIssues(raw: RawPreferences, f: Field): (issues: seq<Issue>)
    ensures |issues| <= 1
    ensures forall i :: 0 <= i < |issues| ==> issues[i].field == f && Violates(raw, issues[i])
    ensures issues == [] <==> Satisfies(raw, f)
  {
    if f == PrimaryGoal then
      if ParseGoal(raw.primaryGoal).None? then [Issue(PrimaryGoal, InvalidEnum)] else []
    else
      var v := NumberOf(raw, f);
      if v < Minimum(f) then [Issue(f, TooSmall(Minimum(f)))]
      else if v > Maximum(f) then [Issue(f, TooBig(Maximum(f)))]
      else []
  }

  /** A field breaks at most one constraint, and its checks report it. */
  lemma FieldIssuesComplete(raw: RawPreferences, issue: Issue)
    requires Violates(raw, issue)
    ensures FieldIssues(raw, issue.field) == [issue]
  {
  }

  /** The issues of the given fields, field after field. */
  function IssuesOf(raw: RawPreferences, fields: seq<Field>): (issues: seq<Issue>)
    ensures forall i :: 0 <= i < |issues| ==> issues[i].field in fields && Violates(raw, issues[i])
    ensures issues == [] <==> forall k :: 0 <= k < |fields| ==> Satisfies(raw, fields[k])
  {
    if fields == [] then [] else FieldIssues(raw, fields[0]) + IssuesOf(raw, fields[1..])
  }

  /** Every broken constraint of a listed field is reported. */
  lemma {:induction false} IssuesOfComplete(raw: RawPreferences, fields: seq<Field>, issue: Issue)
    requires issue.field in fields && Violates(raw, issue)
    ensures issue in IssuesOf(raw, fields)
  {
    if fields[0] == issue.field {
      FieldIssuesComplete(raw, issue);
      assert IssuesOf(raw, fields)[0] == issue;
    } else {
      IssuesOfComplete(raw, fields[1..], issue);
    }
  }

  /** Distinct fields give at most one issue each. */
  lemma {:induction false} IssuesOfOnePerField(raw: RawPreferences, fields: seq<Field>)
    requires forall i, j :: 0 <= i < j < |fields| ==> fields[i] != fields[j]
    ensures forall i, j :: 0 <= i < j < |IssuesOf(raw, fields)| ==>
      IssuesOf(raw, fields)[i].field != IssuesOf(raw, fields)[j].field
  {
    if fields != [] {
      var tail := fields[1..];
      assert forall i, j :: 0 <= i < j < |tail| ==> tail[i] != tail[j] by {
        forall i, j | 0 <= i < j < |tail| ensures tail[i] != tail[j] {
          assert tail[i] == fields[i + 1] && tail[j] == fields[j + 1];
        }
      }
      assert fields[0] !in tail by {
        forall k | 0 <= k < |tail| ensures tail[k] != fields[0] {
          assert tail[k] == fields[k + 1];
        }
      }
      var head, rest := FieldIssues(raw, fields[0]), IssuesOf(raw, tail);
      IssuesOfOnePerField(raw, tail);
      var issues := head + rest;
      assert IssuesOf(raw, fields) == issues;
      forall i, j | 0 <= i < j < |issues| ensures issues[i].field != issues[j].field {
        if i < |head| {
          assert issues[i] == head[i] && issues[j] == rest[j - |head|];
          assert issues[i].field == fields[0];
          assert issues[j].field in tail;
        } else {
          assert issues[i] == rest[i - |head|] && issues[j] == rest[j - |head|];
        }
      }
    }
  }

  /** The schema's fields are the four constrained ones, each once. */
  lemma SchemaFieldsCover(raw: RawPreferences)
    ensures Acceptable(raw) <==> forall k :: 0 <= k < |SchemaFields| ==> Satisfies(raw, SchemaFields[k])
    ensures forall f: Field :: f in SchemaFields
    ensures forall i, j :: 0 <= i < j < |SchemaFields| ==> SchemaFields[i] != SchemaFields[j]
  {
    assert SchemaFields[0] == PrimaryGoal && SchemaFields[1] == MaxCalories;
    assert SchemaFields[2] == MinProtein && SchemaFields[3] == PrepTime;
    forall f: Field ensures f in SchemaFields {
      match f
      case PrimaryGoal => assert SchemaFields[0] == f;
      case MaxCalories => assert SchemaFields[1] == f;
      case MinProtein => assert SchemaFields[2] == f;
      case PrepTime => assert SchemaFields[3] == f;
    }
  }

  /** Every broken constraint appears among the schema's issues. */
  lemma SchemaIssuesComplete(raw: RawPreferences)
    ensures forall issue :: Violates(raw, issue) ==> issue in IssuesOf(raw, SchemaFields)
  {
    SchemaFieldsCover(raw);
    forall issue | Violates(raw, issue) ensures issue in IssuesOf(raw, SchemaFields) {
      IssuesOfComplete(raw, SchemaFields, issue);
    }
  }

  /** `PreferencesSchema.parse`: the accepted preferences, or one issue per broken constraint. */
  function Validate(raw: RawPreferences): (r: Validation)
    ensures r.Valid? <==> Acceptable(raw)
    ensures r.Valid? ==> Accepted(raw, r.prefs)
    ensures r.Invalid? ==> |r.issues| > 0
    ensures r.Invalid? ==> forall i :: 0 <= i < |r.issues| ==> Violates(raw, r.issues[i])
    ensures r.Invalid? ==> forall issue :: Violates(raw, issue) ==> issue in r.issues
    ensures r.Invalid? ==>
      forall i, j :: 0 <= i < j < |r.issues| ==> r.issues[i].field != r.issues[j].field
  {
    SchemaFieldsCover(raw);
    SchemaIssuesComplete(raw);
    IssuesOfOnePerField(raw, SchemaFields);
    var issues := IssuesOf(raw, SchemaFields);
    if issues == [] then
      Valid(UserPreferences(ParseGoal(raw.primaryGoal).value, raw.maxCalories, raw.minProtein,
        raw.prepTime, raw.dietaryRestrictions.GetOr([]), raw.allergies.GetOr(""), raw.equipment))
    else
      Invalid(issues)
  }

  // ================================================================ upstream outcomes

  datatype Part = Part(text: Option<string>)
  datatype Content = Content(parts: Option<seq<Part>>)
  datatype Candidate = Candidate(content: Option<Content>)

  /** A reply body: JSON with the fields the endpoint reads, or text that is not JSON. */
  datatype ReplyBody =
    | Json(errorMessage: Option<string>, candidates: Option<seq<Candidate>>)
    | NotJson(syntaxError: string)

  /** What one upstream attempt comes to. */
  datatype Outcome =
    | Reply(status: int, body: ReplyBody)
    | TimedOut                        // the request was aborted after the 30-second timeout
    | Threw(error: Option<string>)    // `Some(message)` for an `Error`, `None` for any other value

  predicate IsOk(status: int) {
    200 <= status <= 299
  }

  /** The recipe text of a usable reply: a 2xx JSON reply whose first candidate has non-empty text. */
  function ResponseText(o: Outcome): (t: Option<string>)
    ensures t.Some? ==> o.Reply? && IsOk(o.status) && o.body.Json? && t.value != []
  {
    match o
    case Reply(status, Json(_, Some(candidates))) =>
      if IsOk(status) && |candidates| > 0 && candidates[0].content.Some?
        && candidates[0].content.value.parts.Some? && |candidates[0].content.value.parts.value| > 0
        && candidates[0].content.value.parts.value[0].text.Some?
        && candidates[0].content.value.parts.value[0].text.value != []
      then candidates[0].content.value.parts.value[0].text
      else None
    case _ => None
  }

  // ================================================================ messages

  const MissingKeyMessage := "API key not configured. Please set GEMINI_API_KEY in environment variables."
  const UnknownApiError := "Unknown API error"
  const UnknownErrorMessage := "Unknown error occurred"
  const InvalidStructureMessage := "Invalid response structure from API."
  const AllFailedMessage := "All attempts to generate a recipe failed. Please try again later."

  // The longer messages are written in pieces of at most twenty characters; facts about
  // which characters they contain are then cheap to establish piece by piece.

  const HighDemandOpening := "The AI service is cu" + "rrently experiencing " + "high demand" + ". We've tried "

  /** The error after the last 503 or 429 of a model, counting the attempts made on it. */
  function HighDemandMessage(attempt: nat): string {
    HighDemandOpening + NatToString(attempt + 1) + " times. Please try again in a moment."
  }

  const NoResponseOpening := "No response generate" + "d. The API may have " + "blocked the request " + "due to "
  const NoResponseMessage := NoResponseOpening + "safety filters" + "."

  const TimedOutMessage := "Request timed out. T" + "he service may be ex" + "periencing high load" + ". Please try again."

  /** `errorData.error?.message || 'Unknown API error'` of a failed reply. */
  function ApiErrorMessage(body: ReplyBody): string {
    match body
    case Json(Some(m), _) => if m != "" then m else UnknownApiError
    case _ => UnknownApiError
  }

  /**
   * The message of the error an unusable attempt leaves behind, as the branch of the loop
   * that handles that outcome builds it (`attempt` is the index within the current model).
   */
  function FailureMessage(o: Outcome, attempt: nat): string
    requires ResponseText(o).None?
  {
    match o
    case TimedOut => TimedOutMessage
    case Threw(error) => error.GetOr(UnknownErrorMessage)
    case Reply(status, body) =>
      if !IsOk(status) then
        if status == 503 || status == 429 then HighDemandMessage(attempt)
        else if status == 400 then "Invalid request: " + ApiErrorMessage(body)
        else ApiErrorMessage(body)
      else
        match body
        case NotJson(syntaxError) => syntaxError
        case Json(_, candidates) =>
          if candidates.None? || candidates.value == [] then NoResponseMessage
          else InvalidStructureMessage
  }

  // ================================================================ responses

  datatype ApiResponse =
    | RecipeResponse(recipe: Recipe)
    | InvalidRequest(details: seq<Issue>)   // `error: 'Invalid request data'`
    | ErrorResponse(error: string, suggestions: Option<seq<string>>, technicalDetails: Option<string>)

  function StatusOf(r: ApiResponse): int {
    match r
    case RecipeResponse(_) => 200
    case InvalidRequest(_) => 400
    case ErrorResponse(_, _, _) => 500
  }

  // ================================================================ error mapping

  /** The four ways the endpoint explains an error to the user. */
  datatype ErrorKind = HighDemand | SlowRequest | Blocked | Unrecognised

  /** The keyword tests, in the order the endpoint applies them. */
  function ErrorKindOf(message: string): ErrorKind {
    if Includes(message, "high demand") || Includes(message, "overloaded") then HighDemand
    else if Includes(message, "timeout") then SlowRequest
    else if Includes(message, "safety filters") then Blocked
    else Unrecognised
  }

  const HighDemandUserMessage := "The AI service is currently experiencing high demand."
  const SlowRequestUserMessage := "The request took too long to complete."
  const BlockedUserMessage := "The AI couldn't generate a recipe with these specific requirements."

  const HighDemandSuggestions: seq<string> := [
    "Wait 30-60 seconds and try again",
    "Try during off-peak hours (early morning or late evening)",
    "Your preferences have been saved - just click \"Generate Recipe\" again"]
  const SlowRequestSuggestions: seq<string> := [
    "Check your internet connection",
    "Try again in a few moments",
    "The service may be experiencing temporary issues"]
  const BlockedSuggestions: seq<string> := [
    "Try adjusting your dietary restrictions",
    "Modify your nutrition targets slightly",
    "Try a different primary goal"]

  function UserMessage(kind: ErrorKind, message: string): string {
    match kind
    case HighDemand => HighDemandUserMessage
    case SlowRequest => SlowRequestUserMessage
    case Blocked => BlockedUserMessage
    case Unrecognised => message
  }

  function Suggestions(kind: ErrorKind): seq<string> {
    match kind
    case HighDemand => HighDemandSuggestions
    case SlowRequest => SlowRequestSuggestions
    case Blocked => BlockedSuggestions
    case Unrecognised => []
  }

  /** The 500 response for an error with message `message`. */
  function ErrorReply(message: string): (r: ApiResponse)
    ensures r.ErrorResponse?
    ensures r.error == UserMessage(ErrorKindOf(message), message)
    ensures r.technicalDetails.Some? <==> r.error != message
    ensures r.technicalDetails.Some? ==> r.technicalDetails.value == message
    ensures r.suggestions.None? <==> ErrorKindOf(message) == Unrecognised
    ensures r.suggestions.Some? ==>
      r.suggestions.value == Suggestions(ErrorKindOf(message)) && |r.suggestions.value| == 3
    ensures ErrorKindOf(message) == Unrecognised ==> r == ErrorResponse(message, None, None)
  {
    var kind := ErrorKindOf(message);
    var user := UserMessage(kind, message);
    var suggestions := Suggestions(kind);
    ErrorResponse(user,
      if |suggestions| > 0 then Some(suggestions) else None,
      if message != user then Some(message) else None)
  }

  /** The catch-all handler: the user message and suggestions are reassigned by keyword. */
  method ReportError(errorMessage: string) returns (response: ApiResponse)
    ensures response == ErrorReply(errorMessage)
  {
    var userMessage := errorMessage;
    var suggestions: seq<string> := [];
    if Includes(errorMessage, "high demand") || Includes(errorMessage, "overloaded") {
      userMessage := HighDemandUserMessage;
      suggestions := HighDemandSuggestions;
    } else if Includes(errorMessage, "timeout") {
      userMessage := SlowRequestUserMessage;
      suggestions := SlowRequestSuggestions;
    } else if Includes(errorMessage, "safety filters") {
      userMessage := BlockedUserMessage;
      suggestions := BlockedSuggestions;
    }
    response := ErrorResponse(userMessage,
      if |suggestions| > 0 then Some(suggestions) else None,
      if errorMessage != userMessage then Some(errorMessage) else None);
  }

  // ---------------------------------------------------------------- classifying the loop's own messages

  /** The high-demand error is recognised whatever the attempt count in it. */
  lemma HighDemandRecognised(attempt: nat)
    ensures ErrorKindOf(HighDemandMessage(attempt)) == HighDemand
    ensures ErrorReply(HighDemandMessage(attempt))
      == ErrorResponse(HighDemandUserMessage, Some(HighDemandSuggestions), Some(HighDemandMessage(attempt)))
  {
    var a := "The AI service is cu" + "rrently experiencing ";
    var b := ". We've tried " + NatToString(attempt + 1) + " times. Please try again in a moment.";
    calc {
      HighDemandMessage(attempt);
      a + "high demand" + ". We've tried " + NatToString(attempt + 1) + " times. Please try again in a moment.";
      { AppendAssoc3(a + "high demand", ". We've tried ", NatToString(attempt + 1), " times. Please try again in a moment."); }
      a + "high demand" + b;
    }
    IncludesPart(a, "high demand", b);
    assert |HighDemandMessage(attempt)| > |HighDemandUserMessage|;
  }

  lemma AppendAssoc3(a: string, b: string, c: string, d: string)
    ensures a + b + c + d == a + (b + c + d)
  {
  }

  /** No "de" (of "high demand" and "overloaded") in the timeout message. */
  lemma TimedOutLacksDe(x: char, y: char)
    requires x == 'd' && y == 'e'
    ensures NoPair(TimedOutMessage, x, y)
  {
    var a, b, c, d := "Request timed out. T", "he service may be ex", "periencing high load", ". Please try again.";
    NoPairConcat(a, b, x, y);
    NoPairConcat(a + b, c, x, y);
    NoPairConcat(a + b + c, d, x, y);
  }

  /** No "eo" (of "timeout") in the timeout message. */
  lemma TimedOutLacksEo(x: char, y: char)
    requires x == 'e' && y == 'o'
    ensures NoPair(TimedOutMessage, x, y)
  {
    var a, b, c, d := "Request timed out. T", "he service may be ex", "periencing high load", ". Please try again.";
    NoPairConcat(a, b, x, y);
    NoPairConcat(a + b, c, x, y);
    NoPairConcat(a + b + c, d, x, y);
  }

  /** No "af" (of "safety filters") in the timeout message. */
  lemma TimedOutLacksAf(x: char, y: char)
    requires x == 'a' && y == 'f'
    ensures NoPair(TimedOutMessage, x, y)
  {
    var a, b, c, d := "Request timed out. T", "he service may be ex", "periencing high load", ". Please try again.";
    NoPairConcat(a, b, x, y);
    NoPairConcat(a + b, c, x, y);
    NoPairConcat(a + b + c, d, x, y);
  }

  lemma TimedOutLacksHighDemand(t: string)
    requires t == "high demand"
    ensures !Includes(TimedOutMessage, t)
  {
    TimedOutLacksDe('d', 'e');
    NoPairExcludes(TimedOutMessage, t, 5);
  }

  lemma TimedOutLacksOverloaded(t: string)
    requires t == "overloaded"
    ensures !Includes(TimedOutMessage, t)
  {
    TimedOutLacksDe('d', 'e');
    NoPairExcludes(TimedOutMessage, t, 7);
  }

  lemma TimedOutLacksTimeout(t: string)
    requires t == "timeout"
    ensures !Includes(TimedOutMessage, t)
  {
    TimedOutLacksEo('e', 'o');
    NoPairExcludes(TimedOutMessage, t, 3);
  }

  lemma TimedOutLacksSafetyFilters(t: string)
    requires t == "safety filters"
    ensures !Includes(TimedOutMessage, t)
  {
    TimedOutLacksAf('a', 'f');
    NoPairExcludes(TimedOutMessage, t, 1);
  }

  /**
   * The timeout error says "timed out", not "timeout": it reaches the user unexplained, with no
   * suggestions and no technical details.
   */
  lemma TimedOutUnrecognised()
    ensures ErrorKindOf(TimedOutMessage) == Unrecognised
    ensures ErrorReply(TimedOutMessage) == ErrorResponse(TimedOutMessage, None, None)
  {
    TimedOutLacksHighDemand("high demand");
    TimedOutLacksOverloaded("overloaded");
    TimedOutLacksTimeout("timeout");
    TimedOutLacksSafetyFilters("safety filters");
  }

  /** No "de" in the no-response message. */
  lemma NoResponseLacksDe(x: char, y: char)
    requires x == 'd' && y == 'e'
    ensures NoPair(NoResponseMessage, x, y)
  {
    var a, b, c, d := "No response generate", "d. The API may have ", "blocked the request ", "due to ";
    NoPairConcat(a, b, x, y);
    NoPairConcat(a + b, c, x, y);
    NoPairConcat(a + b + c, d, x, y);
    NoPairConcat(a + b + c + d, "safety filters", x, y);
    NoPairConcat(a + b + c + d + "safety filters", ".", x, y);
  }

  /** No "eo" in the no-response message. */
  lemma NoResponseLacksEo(x: char, y: char)
    requires x == 'e' && y == 'o'
    ensures NoPair(NoResponseMessage, x, y)
  {
    var a, b, c, d := "No response generate", "d. The API may have ", "blocked the request ", "due to ";
    NoPairConcat(a, b, x, y);
    NoPairConcat(a + b, c, x, y);
    NoPairConcat(a + b + c, d, x, y);
    NoPairConcat(a + b + c + d, "safety filters", x, y);
    NoPairConcat(a + b + c + d + "safety filters", ".", x, y);
  }

  /** An empty candidate list is explained as a request the safety filters blocked. */
  lemma NoResponseIsBlocked()
    ensures ErrorKindOf(NoResponseMessage) == Blocked
    ensures ErrorReply(NoResponseMessage)
      == ErrorResponse(BlockedUserMessage, Some(BlockedSuggestions), Some(NoResponseMessage))
  {
    NoResponseLacksDe('d', 'e');
    NoResponseExcludes("high demand", "overloaded");
    NoResponseLacksEo('e', 'o');
    NoPairExcludes(NoResponseMessage, "timeout", 3);
    IncludesPart(NoResponseOpening, "safety filters", ".");
    assert |NoResponseMessage| > |BlockedUserMessage|;
  }

  lemma NoResponseExcludes(hd: string, ov: string)
    requires hd == "high demand" && ov == "overloaded"
    requires NoPair(NoResponseMessage, 'd', 'e')
    ensures !Includes(NoResponseMessage, hd) && !Includes(NoResponseMessage, ov)
  {
    NoPairExcludes(NoResponseMessage, hd, 5);
    NoPairExcludes(NoResponseMessage, ov, 7);
  }

  // ================================================================ the attempt schedule

  const Models: seq<string> := ["gemini-2.5-flash", "gemini-1.5-flash"]
  const MaxRetries: nat := 3
  const InitialRetryDelay: nat := 1000

  /** The number of attempts the schedule allows: every model, `MaxRetries` times. */
  const AttemptCount: nat := |Models| * MaxRetries

  /** One upstream call: the model and the attempt index within that model. */
  datatype Attempt = Attempt(model: string, attempt: nat)

  /** The upstream: the outcome of sending the prompt in the given attempt. */
  type Upstream = (Attempt, string) -> Outcome

  /** The attempts in the order they are made: model after model, attempt indices 0, 1, 2 within each. */
  const Schedule: seq<Attempt> := [
    Attempt(Models[0], 0), Attempt(Models[0], 1), Attempt(Models[0], 2),
    Attempt(Models[1], 0), Attempt(Models[1], 1), Attempt(Models[1], 2)]

  /** The schedule is the nested loop over `Models` and attempt indices, flattened. */
  lemma ScheduleOrder()
    ensures |Schedule| == AttemptCount
    ensures forall i :: 0 <= i < |Schedule| ==> Schedule[i] == Attempt(Models[i / MaxRetries], i % MaxRetries)
  {
  }

  function Pow2(k: nat): (p: nat)
    ensures p >= 1
  {
    if k == 0 then 1 else 2 * Pow2(k - 1)
  }

  /** `INITIAL_RETRY_DELAY * Math.pow(2, attempt)`. */
  function Delay(attempt: nat): nat {
    InitialRetryDelay * Pow2(attempt)
  }

  /** The sleeps taken before the `n`-th attempt: one after every failure but a model's last. */
  function SleepsBefore(n: nat): seq<nat>
    requires n <= AttemptCount
  {
    if n == 0 then []
    else
      var a := (n - 1) % MaxRetries;
      SleepsBefore(n - 1) + (if a < MaxRetries - 1 then [Delay(a)] else [])
  }

  function OutcomeOf(upstream: Upstream, prompt: string, i: nat): Outcome
    requires i < AttemptCount
  {
    upstream(Schedule[i], prompt)
  }

  predicate Succeeds(upstream: Upstream, prompt: string, i: nat)
    requires i < AttemptCount
  {
    ResponseText(OutcomeOf(upstream, prompt, i)).Some?
  }

  /** The first attempt from `i` on that yields recipe text, or `AttemptCount` if none does. */
  function FirstSuccess(upstream: Upstream, prompt: string, i: nat): (n: nat)
    requires i <= AttemptCount
    ensures i <= n <= AttemptCount
    ensures n < AttemptCount ==> Succeeds(upstream, prompt, n)
    ensures forall j :: i <= j < n ==> !Succeeds(upstream, prompt, j)
    decreases AttemptCount - i
  {
    if i == AttemptCount then i
    else if Succeeds(upstream, prompt, i) then i
    else FirstSuccess(upstream, prompt, i + 1)
  }

  /** The first success is the attempt that succeeds after all earlier ones failed. */
  lemma FirstSuccessAt(upstream: Upstream, prompt: string, n: nat)
    requires n < AttemptCount && Succeeds(upstream, prompt, n)
    requires forall j :: 0 <= j < n ==> !Succeeds(upstream, prompt, j)
    ensures FirstSuccess(upstream, prompt, 0) == n
  {
  }

  /** What the endpoint does, seen from outside: its response, the sleeps and the upstream calls. */
  datatype Exchange = Exchange(response: ApiResponse, sleeps: seq<nat>, tried: seq<Attempt>)

  /** The generation phase: the first usable reply wins; otherwise the last failure is reported. */
  function Generation(upstream: Upstream, prompt: string): Exchange {
    var n := FirstSuccess(upstream, prompt, 0);
    if n < AttemptCount then
      Exchange(RecipeResponse(ParsedRecipe(ResponseText(OutcomeOf(upstream, prompt, n)).value)),
        SleepsBefore(n), Schedule[..n + 1])
    else
      Exchange(ErrorReply(FailureMessage(OutcomeOf(upstream, prompt, AttemptCount - 1), MaxRetries - 1)),
        SleepsBefore(AttemptCount), Schedule)
  }

  /** When attempt `n` is the first to yield text, its recipe is the answer and no attempt follows. */
  lemma GenerationSucceeds(upstream: Upstream, prompt: string, n: nat)
    requires n < AttemptCount
    requires forall j :: 0 <= j < n ==> !Succeeds(upstream, prompt, j)
    requires Succeeds(upstream, prompt, n)
    ensures Generation(upstream, prompt) == Exchange(
      RecipeResponse(ParsedRecipe(ResponseText(OutcomeOf(upstream, prompt, n)).value)),
      SleepsBefore(n), Schedule[..n + 1])
  {
    FirstSuccessAt(upstream, prompt, n);
  }

  /**
   * When no attempt yields text, every attempt is made and the error reported is the one the
   * last attempt of the last model leaves behind.
   */
  lemma GenerationExhausted(upstream: Upstream, prompt: string)
    requires forall j :: 0 <= j < AttemptCount ==> !Succeeds(upstream, prompt, j)
    ensures Generation(upstream, prompt) == Exchange(
      ErrorReply(FailureMessage(OutcomeOf(upstream, prompt, AttemptCount - 1), MaxRetries - 1)),
      SleepsBefore(AttemptCount), Schedule)
  {
    assert FirstSuccess(upstream, prompt, 0) == AttemptCount;
  }

  /** Attempt `attempt` of model `m` is the next one scheduled, and the sleep after it if it fails. */
  lemma ScheduleStep(m: nat, attempt: nat)
    requires m < |Models| && attempt < MaxRetries
    ensures var k := m * MaxRetries + attempt;
      && k < AttemptCount && Schedule[k] == Attempt(Models[m], attempt)
      && Schedule[..k + 1] == Schedule[..k] + [Attempt(Models[m], attempt)]
      && SleepsBefore(k + 1) == SleepsBefore(k) + (if attempt < MaxRetries - 1 then [Delay(attempt)] else [])
  {
  }

  /** A request body as the endpoint receives it: decodable JSON, or not. */
  datatype Request = Parsed(raw: RawPreferences) | Unparsable(reason: string)

  predicate HasKey(apiKey: Option<string>) {
    apiKey.Some? && apiKey.value != ""
  }

  /** The specification of `POST`. */
  function ExpectedExchange(request: Request, apiKey: Option<string>, upstream: Upstream): Exchange {
    match request
    case Unparsable(reason) => Exchange(ErrorReply(reason), [], [])
    case Parsed(raw) =>
      match Validate(raw)
      case Invalid(issues) => Exchange(InvalidRequest(issues), [], [])
      case Valid(prefs) =>
        if !HasKey(apiKey) then Exchange(ErrorResponse(MissingKeyMessage, None, None), [], [])
        else Generation(upstream, Prompt(prefs))
  }

  // ================================================================ the endpoint

  /** What the attempts on one model come to: a recipe, or the error of its last attempt. */
  datatype ModelResult = Found(recipe: Recipe) | Exhausted(error: string)

  /**
   * The inner loop of `POST`: up to `MaxRetries` attempts on model `m`, sleeping after each
   * failure but the last. `sleeps` and `tried` carry on the records of the earlier models.
   */
  method TryModel(m: nat, prompt: string, upstream: Upstream, sleeps0: seq<nat>, tried0: seq<Attempt>)
    returns (result: ModelResult, sleeps: seq<nat>, tried: seq<Attempt>)
    requires m < |Models|
    requires tried0 == Schedule[..m * MaxRetries] && sleeps0 == SleepsBefore(m * MaxRetries)
    requires forall j :: 0 <= j < m * MaxRetries ==> !Succeeds(upstream, prompt, j)
    ensures result.Found? ==>
      var n := FirstSuccess(upstream, prompt, 0);
      && n < (m + 1) * MaxRetries
      && result.recipe == ParsedRecipe(ResponseText(OutcomeOf(upstream, prompt, n)).value)
      && sleeps == SleepsBefore(n) && tried == Schedule[..n + 1]
    ensures result.Exhausted? ==>
      && (forall j :: 0 <= j < (m + 1) * MaxRetries ==> !Succeeds(upstream, prompt, j))
      && !Succeeds(upstream, prompt, (m + 1) * MaxRetries - 1)
      && result.error == FailureMessage(OutcomeOf(upstream, prompt, (m + 1) * MaxRetries - 1), MaxRetries - 1)
      && sleeps == SleepsBefore((m + 1) * MaxRetries) && tried == Schedule[..(m + 1) * MaxRetries]
  {
    sleeps, tried := sleeps0, tried0;
    for attempt := 0 to MaxRetries
      invariant attempt < MaxRetries
      invariant tried == Schedule[..m * MaxRetries + attempt]
      invariant sleeps == SleepsBefore(m * MaxRetries + attempt)
      invariant forall j :: 0 <= j < m * MaxRetries + attempt ==> !Succeeds(upstream, prompt, j)
    {
      var k := m * MaxRetries + attempt;
      ScheduleStep(m, attempt);
      var outcome := upstream(Attempt(Models[m], attempt), prompt);
      assert outcome == OutcomeOf(upstream, prompt, k);
      tried := tried + [Attempt(Models[m], attempt)];
      var text := ResponseText(outcome);
      if text.Some? {
        FirstSuccessAt(upstream, prompt, k);
        var recipe := ParseRecipeResponse(text.value);
        return Found(recipe), sleeps, tried;
      }
      if attempt < MaxRetries - 1 {
        sleeps := sleeps + [Delay(attempt)];
        continue;
      }
      result := Exhausted(FailureMessage(outcome, attempt));
      break;
    }
  }

  /**
   * The model-by-model loop of `POST` and its final error report. `lastError` stays optional
   * as in the source; the invariant shows it is set once a model's attempts are used up, so the
   * fallback message is never the one reported.
   */
  method TryModels(prompt: string, upstream: Upstream)
    returns (response: ApiResponse, sleeps: seq<nat>, tried: seq<Attempt>)
    ensures Exchange(response, sleeps, tried) == Generation(upstream, prompt)
  {
    sleeps, tried := [], [];
    var lastError: Option<string> := None;
    for m := 0 to |Models|
      invariant tried == Schedule[..m * MaxRetries]
      invariant sleeps == SleepsBefore(m * MaxRetries)
      invariant forall j :: 0 <= j < m * MaxRetries ==> !Succeeds(upstream, prompt, j)
      invariant m > 0 ==>
        && !Succeeds(upstream, prompt, m * MaxRetries - 1)
        && lastError == Some(FailureMessage(OutcomeOf(upstream, prompt, m * MaxRetries - 1), MaxRetries - 1))
    {
      var result;
      result, sleeps, tried := TryModel(m, prompt, upstream, sleeps, tried);
      if result.Found? {
        response := RecipeResponse(result.recipe);
        GenerationSucceeds(upstream, prompt, FirstSuccess(upstream, prompt, 0));
        return;
      }
      lastError := Some(result.error);
    }
    response := ReportError(lastError.GetOr(AllFailedMessage));
    GenerationExhausted(upstream, prompt);
  }

  /** `POST /api/generate-recipe`, returning also the sleeps it took and the attempts it made. */
  method Post(request: Request, apiKey: Option<string>, upstream: Upstream)
    returns (response: ApiResponse, sleeps: seq<nat>, tried: seq<Attempt>)
    ensures Exchange(response, sleeps, tried) == ExpectedExchange(request, apiKey, upstream)
  {
    sleeps, tried := [], [];
    if request.Unparsable? {
      response := ReportError(request.reason);
      return;
    }
    var validation := Validate(request.raw);
    if validation.Invalid? {
      response := InvalidRequest(validation.issues);
      return;
    }
    if !HasKey(apiKey) {
      response := ErrorResponse(MissingKeyMessage, None, None);
      return;
    }
    var prompt := BuildPrompt(validation.prefs);
    response, sleeps, tried := TryModels(prompt, upstream);
  }

  // ================================================================ properties of the exchange

  /** Attempts go model by model in order, with indices 0 .. MaxRetries - 1: one to six of them. */
  lemma AttemptsFollowSchedule(upstream: Upstream, prompt: string)
    ensures var e := Generation(upstream, prompt);
      && 1 <= |e.tried| <= |Models| * MaxRetries == 6
      && forall i :: 0 <= i < |e.tried| ==> e.tried[i] == Attempt(Models[i / MaxRetries], i % MaxRetries)
  {
    ScheduleOrder();
    var n := FirstSuccess(upstream, prompt, 0);
    if n < AttemptCount {
      GenerationSucceeds(upstream, prompt, n);
    } else {
      GenerationExhausted(upstream, prompt);
    }
  }

  /**
   * One sleep after every failed attempt except each model's last, lasting 1000 * 2^attempt:
   * with three attempts per model, 1000 or 2000 ms.
   */
  lemma {:induction false} SleepsAreBackoff(n: nat)
    requires n <= AttemptCount
    ensures |SleepsBefore(n)| == n - n / MaxRetries
    ensures forall k :: 0 <= k < |SleepsBefore(n)| ==> SleepsBefore(n)[k] in {1000, 2000}
  {
    if n > 0 {
      SleepsAreBackoff(n - 1);
      assert Delay(0) == 1000 && Delay(1) == 2000;
    }
  }

  /** The sleeps of a run in which every attempt fails. */
  lemma AllSleeps()
    ensures SleepsBefore(AttemptCount) == [1000, 2000, 1000, 2000]
  {
    assert Delay(0) == 1000 && Delay(1) == 2000;
    assert SleepsBefore(3) == SleepsBefore(2) == [1000, 2000];
    assert SleepsBefore(5) == SleepsBefore(4) + [2000] == [1000, 2000, 1000, 2000];
    assert AttemptCount == 6;
  }

  /**
   * An exchange sleeps at most four times, each time 1000 or 2000 ms; when every attempt fails it
   * sleeps exactly 1000, 2000, 1000, 2000, so never between one model's last attempt and the next
   * model's first.
   */
  lemma BackoffSleeps(upstream: Upstream, prompt: string)
    ensures var e := Generation(upstream, prompt);
      && |e.sleeps| <= 4
      && (forall k :: 0 <= k < |e.sleeps| ==> e.sleeps[k] in {1000, 2000})
      && ((forall j :: 0 <= j < AttemptCount ==> !Succeeds(upstream, prompt, j)) ==>
           e.sleeps == [1000, 2000, 1000, 2000])
  {
    var n := FirstSuccess(upstream, prompt, 0);
    SleepsAreBackoff(n);
    if n < AttemptCount {
      GenerationSucceeds(upstream, prompt, n);
    } else {
      GenerationExhausted(upstream, prompt);
      AllSleeps();
    }
  }

  /** A 400 reply is not final: unless it came last, the next attempt is made. */
  lemma BadRequestRetried(upstream: Upstream, prompt: string, i: nat)
    requires i + 1 < AttemptCount
    requires forall j :: 0 <= j < i ==> !Succeeds(upstream, prompt, j)
    requires OutcomeOf(upstream, prompt, i).Reply? && OutcomeOf(upstream, prompt, i).status == 400
    ensures var e := Generation(upstream, prompt);
      |e.tried| > i + 1 && e.tried[i + 1] == Schedule[i + 1]
  {
    var n := FirstSuccess(upstream, prompt, 0);
    assert n != i;
    if n < AttemptCount {
      GenerationSucceeds(upstream, prompt, n);
    } else {
      GenerationExhausted(upstream, prompt);
    }
  }

  /** A run that ends in a timeout tells the user only the raw timeout text. */
  lemma ExhaustedByTimeout(upstream: Upstream, prompt: string)
    requires forall j :: 0 <= j < AttemptCount ==> !Succeeds(upstream, prompt, j)
    requires OutcomeOf(upstream, prompt, AttemptCount - 1) == TimedOut
    ensures Generation(upstream, prompt).response == ErrorResponse(TimedOutMessage, None, None)
  {
    GenerationExhausted(upstream, prompt);
    TimedOutUnrecognised();
  }

  /** A run that ends in a 503 or 429 is explained as high demand, after three tries of the model. */
  lemma ExhaustedByHighDemand(upstream: Upstream, prompt: string)
    requires forall j :: 0 <= j < AttemptCount ==> !Succeeds(upstream, prompt, j)
    requires OutcomeOf(upstream, prompt, AttemptCount - 1).Reply?
    requires OutcomeOf(upstream, prompt, AttemptCount - 1).status in {503, 429}
    ensures Generation(upstream, prompt).response
      == ErrorResponse(HighDemandUserMessage, Some(HighDemandSuggestions), Some(HighDemandMessage(2)))
  {
    GenerationExhausted(upstream, prompt);
    HighDemandRecognised(2);
  }

  /** Without an API key, a valid request gets a 500 before any upstream attempt. */
  lemma MissingKeyStopsEarly(raw: RawPreferences, apiKey: Option<string>, upstream: Upstream)
    requires Acceptable(raw) && !HasKey(apiKey)
    ensures ExpectedExchange(Parsed(raw), apiKey, upstream)
      == Exchange(ErrorResponse(MissingKeyMessage, None, None), [], [])
  {
  }

  /** An invalid request gets a 400 listing its issues, whether or not a key is configured. */
  lemma InvalidRequestStopsEarly(raw: RawPreferences, apiKey: Option<string>, upstream: Upstream)
    requires !Acceptable(raw)
    ensures var e := ExpectedExchange(Parsed(raw), apiKey, upstream);
      && e.response.InvalidRequest? && StatusOf(e.response) == 400
      && e.response.details != [] && e.sleeps == [] && e.tried == []
  {
  }
}
