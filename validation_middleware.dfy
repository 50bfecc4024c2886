/**
  `validateBody`, `validateParams` and `validateQuery`: run a schema over
  one part of the request, replace that part with the parsed value and hand
  on, or answer 400 with the issues, or pass any other error to `next`.
  The three are one handler parameterised by the part it checks.
 */
module ValidationMiddleware {
  import opened Common
  import opened Strings
  import opened Zod
  import opened Http

  /** The request part a validator checks. */
  datatype Target = Body | Params | Query

  /** What `schema.parse` does with a value. */
  datatype ParseOutcome = Parsed(value: Json) | ZodError(issues: seq<Issue>) | Threw(error: Exception)

  type Schema = Json -> ParseOutcome

  /** The top-level message of a 400 answer. */
  function FailureMessage(t: Target): string {
    match t
    case Body => "Validation failed"
    case Params => "Invalid parameters"
    case Query => "Invalid query parameters"
  }

  /** The three validators tell their failures apart. */
  lemma FailureMessagesDistinct(t1: Target, t2: Target)
    requires t1 != t2
    ensures FailureMessage(t1) != FailureMessage(t2)
  {
  }

  /** `String(segment)`. */
  function SegmentText(p: PathSegment): string {
    match p
    case Key(name) => name
    case Index(i) => Decimal(i)
  }

  function PathTexts(path: seq<PathSegment>): (texts: seq<string>)
    ensures |texts| == |path|
    ensures forall i :: 0 <= i < |path| ==> texts[i] == SegmentText(path[i])
  {
    if path == [] then [] else [SegmentText(path[0])] + PathTexts(path[1..])
  }

  /** `${err.path.join('.')}: ${err.message}`. */
  function FormatIssue(issue: Issue): string {
    Join(PathTexts(issue.path), ".") + ": " + issue.message
  }

  function FormatAll(issues: seq<Issue>): (texts: seq<string>)
    ensures |texts| == |issues|
    ensures forall i :: 0 <= i < |issues| ==> texts[i] == FormatIssue(issues[i])
  {
    if issues == [] then [] else [FormatIssue(issues[0])] + FormatAll(issues[1..])
  }

  /** The `errors` string: every issue rendered, in order, joined by ", ".
      It is empty without issues, a lone issue's rendering for one, and it
      holds the rendering of each issue. */
  function FormatIssues(issues: seq<Issue>): (s: string)
    ensures issues == [] ==> s == ""
    ensures |issues| == 1 ==> s == FormatIssue(issues[0])
    ensures forall i :: 0 <= i < |issues| ==> Contains(s, FormatIssue(issues[i]))
  {
    var texts := FormatAll(issues);
    JoinContainsParts(texts, ", ");
    assert forall i :: 0 <= i < |issues| ==> texts[i] == FormatIssue(issues[i]);
    Join(texts, ", ")
  }

  /** One issue renders as its dotted path, a colon and its message. */
  lemma FormatTopLevelIssue(name: string, message: string)
    ensures FormatIssue(Issue([Key(name)], message)) == name + ": " + message
  {
    assert PathTexts([Key(name)]) == [name];
  }

  /** A nested path joins its segments with dots; array positions print in
      decimal. */
  lemma FormatNestedIssue(name: string, i: nat, message: string)
    ensures FormatIssue(Issue([Key(name), Index(i)], message)) == name + "." + Decimal(i) + ": " + message
  {
    var texts := PathTexts([Key(name), Index(i)]);
    assert texts == [name, Decimal(i)];
    assert texts[1..] == [Decimal(i)];
    assert Join(texts, ".") == texts[0] + "." + Join(texts[1..], ".");
  }

  /** Appending an issue appends its rendering after ", ": the string lists
      the issues in their order. */
  lemma FormatIssuesAppend(issues: seq<Issue>, last: Issue)
    ensures FormatIssues(issues + [last]) ==
      if issues == [] then FormatIssue(last) else FormatIssues(issues) + ", " + FormatIssue(last)
  {
    var all := FormatAll(issues + [last]);
    assert all == FormatAll(issues) + [FormatIssue(last)];
    if issues != [] {
      JoinAppend(FormatAll(issues), [FormatIssue(last)], ", ");
    }
  }

  /** Rendering two runs of issues one after the other is rendering them
      together. */
  lemma FormatIssuesConcat(first: seq<Issue>, second: seq<Issue>)
    requires first != [] && second != []
    ensures FormatIssues(first + second) == FormatIssues(first) + ", " + FormatIssues(second)
  {
    assert FormatAll(first + second) == FormatAll(first) + FormatAll(second);
    JoinAppend(FormatAll(first), FormatAll(second), ", ");
  }

  /** What a validator does, given the outcome of the parse. */
  datatype Step = Continue(parsed: Json) | Respond(reply: Reply) | Forward(error: Exception)

  /** The decision of a validator for `target`. */
  function Decide(target: Target, outcome: ParseOutcome): (s: Step)
    ensures outcome.Parsed? <==> s.Continue?
    ensures s.Continue? ==> s.parsed == outcome.value
    ensures outcome.ZodError? <==> s.Respond?
    ensures s.Respond? ==>
      (s.reply.status == 400
       && s.reply.body == JObject(map["message" := JString(FailureMessage(target)),
                                      "errors" := JString(FormatIssues(outcome.issues))]))
    ensures outcome.Threw? <==> s.Forward?
    ensures s.Forward? ==> s.error == outcome.error
  {
    match outcome
    case Parsed(v) => Continue(v)
    case ZodError(issues) =>
      Respond(Reply(400, JObject(map["message" := JString(FailureMessage(target)), "errors" := JString(FormatIssues(issues))])))
    case Threw(e) => Forward(e)
  }

  /** The validators for two targets decide alike on the same outcome, but
      for the message of a 400 answer. */
  lemma ValidatorsDifferOnlyInMessage(t1: Target, t2: Target, outcome: ParseOutcome)
    ensures Decide(t1, outcome).Continue? <==> Decide(t2, outcome).Continue?
    ensures Decide(t1, outcome).Forward? <==> Decide(t2, outcome).Forward?
    ensures !outcome.ZodError? ==> Decide(t1, outcome) == Decide(t2, outcome)
    ensures outcome.ZodError? ==>
      Decide(t1, outcome).reply.body.fields["errors"] == Decide(t2, outcome).reply.body.fields["errors"]
  {
  }

  /** The request part a target names. */
  function Part(ex: Exchange, target: Target): Json
    reads ex
  {
    match target
    case Body => ex.body
    case Params => ex.params
    case Query => ex.query
  }

  /** The validator for `target` run on one exchange. On success it replaces
      that part with the parsed value and calls `next()` once; on a schema
      failure it answers and leaves the part alone; on any other error it
      calls `next(error)`. The other parts never change. */
  method Validate(ex: Exchange, target: Target, schema: Schema)
    modifies ex`body, ex`params, ex`query, ex`effects
    ensures var step := Decide(target, schema(old(Part(ex, target))));
      match step
      case Continue(v) => Part(ex, target) == v && ex.effects == old(ex.effects) + [NextCalled(None)]
      case Respond(reply) => Part(ex, target) == old(Part(ex, target)) && ex.effects == old(ex.effects) + [Responded(reply)]
      case Forward(e) => Part(ex, target) == old(Part(ex, target)) && ex.effects == old(ex.effects) + [NextCalled(Some(e))]
    ensures target != Body ==> ex.body == old(ex.body)
    ensures target != Params ==> ex.params == old(ex.params)
    ensures target != Query ==> ex.query == old(ex.query)
  {
    var input := Part(ex, target);
    var outcome := schema(input);
    match outcome {
      case Parsed(v) =>
        match target {
          case Body => ex.body := v;
          case Params => ex.params := v;
          case Query => ex.query := v;
        }
        ex.effects := ex.effects + [NextCalled(None)];
      case ZodError(issues) =>
        var reply := Reply(400, JObject(map["message" := JString(FailureMessage(target)),
                                            "errors" := JString(FormatIssues(issues))]));
        ex.effects := ex.effects + [Responded(reply)];
      case Threw(e) =>
        ex.effects := ex.effects + [NextCalled(Some(e))];
    }
  }
}
