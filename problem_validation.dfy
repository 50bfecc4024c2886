/**
  `problemEntrySchema`, `updateProblemEntrySchema` (every field optional,
  `userId` dropped) and `problemEntryParamsSchema`. Numbers arrive from
  JSON, so they are finite and modelled as reals; times are milliseconds
  since the epoch. The URL check, the two enumerations and `new Date(text)`
  are the library's and come in as parameters.
 */
module ProblemValidation {
  import opened Common
  import opened Strings
  import opened Zod
  import AuthService

  // ---------------------------------------------------------------------
  // value classes

  /** `Number.isInteger` on a finite number. */
  predicate IsInteger(x: real) {
    x.Floor as real == x
  }

  /** The pattern `^[0-9a-fA-F]{24}$`: the text of a MongoDB ObjectId. */
  predicate IsObjectIdText(s: string) {
    |s| == 24 && AllHex(s)
  }

  /** A `dateSolved` value: a `Date`, or text that `new Date` converts. */
  datatype DateInput = DateValue(ms: int) | DateText(text: string)

  /** The instant a date input denotes; None for an invalid date. */
  function DateOf(d: DateInput, fmt: Formats): Option<int> {
    match d
    case DateValue(ms) => Some(ms)
    case DateText(text) => fmt.parseDate(text)
  }

  // ---------------------------------------------------------------------
  // fields, shared by the entry and the update schema
  // Each field lists its checks in declaration order. Naming every check once
  // (`checks[i] == checks[i]`) lets the verifier use Failing's contract on it.

  function ProblemIdIssues(s: string): (issues: seq<Issue>)
    ensures issues == [] <==> |s| >= 1
  {
    var checks := [Check(|s| >= 1, "Problem ID is required")];
    assert checks[0] == checks[0];
    Failing(Field("problemId"), checks)
  }

  function TitleIssues(s: string): (issues: seq<Issue>)
    ensures issues == [] <==> 1 <= |s| <= 200
  {
    var checks := [
      Check(|s| >= 1, "Problem title is required"),
      Check(|s| <= 200, "Problem title must be at most 200 characters long")];
    assert checks[0] == checks[0];
    assert checks[1] == checks[1];
    Failing(Field("problemTitle"), checks)
  }

  function UrlIssues(s: string, fmt: Formats): (issues: seq<Issue>)
    ensures issues == [] <==> |s| >= 1 && fmt.isUrl(s)
  {
    var checks := [
      Check(|s| >= 1, "Problem URL is required"),
      Check(fmt.isUrl(s), "Invalid URL format")];
    assert checks[0] == checks[0];
    assert checks[1] == checks[1];
    Failing(Field("problemUrl"), checks)
  }

  /** The rule the entry's user id and the route id share: required, and
      then the ObjectId pattern; only the field and the messages differ. */
  function ObjectIdIssues(field: string, requiredMessage: string, formatMessage: string, s: string): (issues: seq<Issue>)
    ensures issues == [] <==> IsObjectIdText(s)
    ensures |s| == 0 ==> issues == [Issue(Field(field), requiredMessage), Issue(Field(field), formatMessage)]
  {
    var checks := [
      Check(|s| >= 1, requiredMessage),
      Check(IsObjectIdText(s), formatMessage)];
    assert checks[0] == checks[0];
    assert checks[1] == checks[1];
    assert Failing(Field(field), checks[1..]) == (if IsObjectIdText(s) then [] else [Issue(Field(field), formatMessage)]) by {
      assert checks[1..][1..] == [];
    }
    Failing(Field(field), checks)
  }

  function UserIdIssues(s: string): seq<Issue> {
    ObjectIdIssues("userId", "User ID is required", "Invalid User ID format", s)
  }

  function DifficultyIssues(s: string, fmt: Formats): (issues: seq<Issue>)
    ensures issues == [] <==> fmt.isDifficulty(s)
  {
    var checks := [Check(fmt.isDifficulty(s), "Invalid difficulty level")];
    assert checks[0] == checks[0];
    Failing(Field("difficulty"), checks)
  }

  function LanguageIssues(s: string): (issues: seq<Issue>)
    ensures issues == [] <==> 1 <= |s| <= 50
  {
    var checks := [
      Check(|s| >= 1, "Programming language is required"),
      Check(|s| <= 50, "Language name must be at most 50 characters long")];
    assert checks[0] == checks[0];
    assert checks[1] == checks[1];
    Failing(Field("language"), checks)
  }

  function AttemptsIssues(x: real): (issues: seq<Issue>)
    ensures issues == [] <==> IsInteger(x) && 0.0 <= x <= 1000.0
  {
    var checks := [
      Check(IsInteger(x), "Attempts must be an integer"),
      Check(x >= 0.0, "Attempts cannot be negative"),
      Check(x <= 1000.0, "Attempts cannot exceed 1000")];
    assert checks[0] == checks[0];
    assert checks[1] == checks[1];
    assert checks[2] == checks[2];
    Failing(Field("attempts"), checks)
  }

  /** The issues of the tags from position `offset` on, each under `tags`
      at its own index. */
  function TagElementIssues(tags: seq<string>, offset: nat): (issues: seq<Issue>)
    ensures issues == [] <==> forall i :: 0 <= i < |tags| ==> 1 <= |tags[i]| <= 30
    decreases |tags|
  {
    if tags == [] then []
    else
      var checks := [
        Check(|tags[0]| >= 1, "Tag cannot be empty"),
        Check(|tags[0]| <= 30, "Tag must be at most 30 characters")];
      assert checks[0] == checks[0];
      assert checks[1] == checks[1];
      var here := Failing([Key("tags"), Index(offset)], checks);
      var rest := TagElementIssues(tags[1..], offset + 1);
      assert forall i :: 1 <= i < |tags| ==> tags[i] == tags[1..][i - 1];
      here + rest
  }

  /** Every issue of the tags sits at the index of a tag that fails. */
  lemma {:induction false} TagIssuesAtFailingTags(tags: seq<string>, offset: nat)
    ensures forall k :: 0 <= k < |TagElementIssues(tags, offset)| ==>
      exists i :: 0 <= i < |tags| && !(1 <= |tags[i]| <= 30) && TagElementIssues(tags, offset)[k].path == [Key("tags"), Index(offset + i)]
    decreases |tags|
  {
    if tags != [] {
      var checks := [
        Check(|tags[0]| >= 1, "Tag cannot be empty"),
        Check(|tags[0]| <= 30, "Tag must be at most 30 characters")];
      assert checks[0] == checks[0];
      assert checks[1] == checks[1];
      var here := Failing([Key("tags"), Index(offset)], checks);
      var rest := TagElementIssues(tags[1..], offset + 1);
      var issues := TagElementIssues(tags, offset);
      assert issues == here + rest;
      TagIssuesAtFailingTags(tags[1..], offset + 1);
      forall k | 0 <= k < |issues|
        ensures exists i :: 0 <= i < |tags| && !(1 <= |tags[i]| <= 30) && issues[k].path == [Key("tags"), Index(offset + i)]
      {
        if k < |here| {
          assert !(1 <= |tags[0]| <= 30) && issues[k].path == [Key("tags"), Index(offset + 0)];
        } else {
          assert issues[k] == rest[k - |here|];
          var j :| 0 <= j < |tags[1..]| && !(1 <= |tags[1..][j]| <= 30) && rest[k - |here|].path == [Key("tags"), Index(offset + 1 + j)];
          assert tags[1..][j] == tags[j + 1];
        }
      }
    } else {
      assert TagElementIssues(tags, offset) == [];
    }
  }

  /** Some issue sits under `tags` at index `position`. */
  predicate ReportedAt(issues: seq<Issue>, position: nat) {
    exists k :: 0 <= k < |issues| && issues[k].path == [Key("tags"), Index(position)]
  }

  /** Every tag that fails has an issue at its index. */
  lemma {:induction false} FailingTagsReported(tags: seq<string>, offset: nat)
    ensures forall i :: 0 <= i < |tags| && !(1 <= |tags[i]| <= 30) ==> ReportedAt(TagElementIssues(tags, offset), offset + i)
    decreases |tags|
  {
    if tags != [] {
      var checks := [
        Check(|tags[0]| >= 1, "Tag cannot be empty"),
        Check(|tags[0]| <= 30, "Tag must be at most 30 characters")];
      assert checks[0] == checks[0];
      assert checks[1] == checks[1];
      var here := Failing([Key("tags"), Index(offset)], checks);
      var rest := TagElementIssues(tags[1..], offset + 1);
      var issues := TagElementIssues(tags, offset);
      assert issues == here + rest;
      FailingTagsReported(tags[1..], offset + 1);
      forall i | 0 <= i < |tags| && !(1 <= |tags[i]| <= 30)
        ensures ReportedAt(issues, offset + i)
      {
        if i == 0 {
          assert here != [];
          assert issues[0] == here[0];
        } else {
          assert tags[1..][i - 1] == tags[i];
          assert ReportedAt(rest, offset + 1 + (i - 1));
          var k :| 0 <= k < |rest| && rest[k].path == [Key("tags"), Index(offset + 1 + (i - 1))];
          assert issues[|here| + k] == rest[k];
        }
      }
    }
  }

  /** The tag rules: at most 20 tags, each of 1 to 30 characters. */
  predicate TagsAcceptable(tags: seq<string>) {
    |tags| <= 20 && forall i :: 0 <= i < |tags| ==> 1 <= |tags[i]| <= 30
  }

  /** The array's own count check comes before the checks on its elements. */
  function TagsIssues(tags: seq<string>): (issues: seq<Issue>)
    ensures issues == [] <==> TagsAcceptable(tags)
  {
    var checks := [Check(|tags| <= 20, "Cannot have more than 20 tags")];
    assert checks[0] == checks[0];
    Failing(Field("tags"), checks) + TagElementIssues(tags, 0)
  }

  function StatusIssues(s: string, fmt: Formats): (issues: seq<Issue>)
    ensures issues == [] <==> fmt.isStatus(s)
  {
    var checks := [Check(fmt.isStatus(s), "Invalid status")];
    assert checks[0] == checks[0];
    Failing(Field("status"), checks)
  }

  function TimeTakenIssues(x: real): (issues: seq<Issue>)
    ensures issues == [] <==> 0.0 <= x <= 86400.0
  {
    var checks := [
      Check(x >= 0.0, "Time taken cannot be negative"),
      Check(x <= 86400.0, "Time taken cannot exceed 24 hours (86400 seconds)")];
    assert checks[0] == checks[0];
    assert checks[1] == checks[1];
    Failing(Field("TimeTaken"), checks)
  }

  function CognitiveLoadIssues(x: real): (issues: seq<Issue>)
    ensures issues == [] <==> IsInteger(x) && 1.0 <= x <= 10.0
  {
    var checks := [
      Check(IsInteger(x), "Cognitive load must be an integer"),
      Check(x >= 1.0, "Cognitive load must be at least 1"),
      Check(x <= 10.0, "Cognitive load must be at most 10")];
    assert checks[0] == checks[0];
    assert checks[1] == checks[1];
    assert checks[2] == checks[2];
    Failing(Field("cognitiveLoad"), checks)
  }

  /** The refinement compares the converted date with the clock; an invalid
      date compares false and so fails it too. */
  function DateIssues(d: DateInput, fmt: Formats, now: int): (issues: seq<Issue>)
    ensures issues == [] <==> DateOf(d, fmt).Some? && DateOf(d, fmt).value <= now
  {
    var checks := [Check(DateOf(d, fmt).Some? && DateOf(d, fmt).value <= now, "Date solved cannot be in the future")];
    assert checks[0] == checks[0];
    Failing(Field("dateSolved"), checks)
  }

  function NotesIssues(s: string): (issues: seq<Issue>)
    ensures issues == [] <==> |s| <= 1000
  {
    var checks := [Check(|s| <= 1000, "Notes must be at most 1000 characters long")];
    assert checks[0] == checks[0];
    Failing(Field("notes"), checks)
  }

  /** The issues of an optional field: none when it is absent. */
  function Optional<T>(v: Option<T>, issuesOf: T -> seq<Issue>): (issues: seq<Issue>)
    ensures v.None? ==> issues == []
    ensures v.Some? ==> issues == issuesOf(v.value)
  {
    match v
    case None => []
    case Some(x) => issuesOf(x)
  }

  // ---------------------------------------------------------------------
  // problemEntrySchema

  /** A problem-entry body as it arrives; the three defaulted fields and
      `notes` may be absent. */
  datatype EntryInput = EntryInput(
    problemId: string, problemTitle: string, problemUrl: string, userId: string,
    difficulty: string, language: string, attempts: real, tags: Option<seq<string>>,
    status: string, timeTaken: real, cognitiveLoad: Option<real>,
    dateSolved: Option<DateInput>, notes: Option<string>)

  /** A parsed entry: defaults filled in, the date converted. */
  datatype Entry = Entry(
    problemId: string, problemTitle: string, problemUrl: string, userId: string,
    difficulty: string, language: string, attempts: real, tags: seq<string>,
    status: string, timeTaken: real, cognitiveLoad: real,
    dateSolved: int, notes: Option<string>)

  /** A default takes the place of an absent value and is then checked like
      one the client sent. */
  function TagsOrDefault(v: Option<seq<string>>): seq<string> { v.GetOr([]) }
  function CognitiveLoadOrDefault(v: Option<real>): real { v.GetOr(3.0) }
  function DateOrDefault(v: Option<DateInput>, now: int): DateInput { v.GetOr(DateValue(now)) }

  /** The constraints on the descriptive fields, stated directly. */
  predicate DescriptionAcceptable(input: EntryInput, fmt: Formats) {
    && |input.problemId| >= 1
    && 1 <= |input.problemTitle| <= 200
    && |input.problemUrl| >= 1 && fmt.isUrl(input.problemUrl)
    && IsObjectIdText(input.userId)
    && fmt.isDifficulty(input.difficulty)
    && 1 <= |input.language| <= 50
  }

  /** The constraints on attempts, tags and status, the tags defaulted. */
  predicate ProgressAcceptable(input: EntryInput, fmt: Formats) {
    && IsInteger(input.attempts) && 0.0 <= input.attempts <= 1000.0
    && TagsAcceptable(TagsOrDefault(input.tags))
    && fmt.isStatus(input.status)
  }

  /** The constraints on time taken, cognitive load, date and notes, the load
      and the date defaulted. */
  predicate EffortAcceptable(input: EntryInput, fmt: Formats, now: int) {
    var load := CognitiveLoadOrDefault(input.cognitiveLoad);
    var date := DateOf(DateOrDefault(input.dateSolved, now), fmt);
    && 0.0 <= input.timeTaken <= 86400.0
    && IsInteger(load) && 1.0 <= load <= 10.0
    && date.Some? && date.value <= now
    && (input.notes.Some? ==> |input.notes.value| <= 1000)
  }

  /** The constraints on a problem entry. */
  predicate Acceptable(input: EntryInput, fmt: Formats, now: int) {
    DescriptionAcceptable(input, fmt) && ProgressAcceptable(input, fmt) && EffortAcceptable(input, fmt, now)
  }

  /** The issues of the descriptive fields, in declaration order: none
      exactly when their constraints hold. */
  function DescriptionIssues(input: EntryInput, fmt: Formats): (issues: seq<Issue>)
    ensures issues == [] <==> DescriptionAcceptable(input, fmt)
  {
    var id := ProblemIdIssues(input.problemId);
    var title := TitleIssues(input.problemTitle);
    var url := UrlIssues(input.problemUrl, fmt);
    var user := UserIdIssues(input.userId);
    var difficulty := DifficultyIssues(input.difficulty, fmt);
    var language := LanguageIssues(input.language);
    var issues := id + title + url + user + difficulty + language;
    assert |issues| == |id| + |title| + |url| + |user| + |difficulty| + |language|;
    issues
  }

  /** The issues of attempts, tags and status, in declaration order. */
  function ProgressIssues(input: EntryInput, fmt: Formats): (issues: seq<Issue>)
    ensures issues == [] <==> ProgressAcceptable(input, fmt)
  {
    var attempts := AttemptsIssues(input.attempts);
    var tags := TagsIssues(TagsOrDefault(input.tags));
    var status := StatusIssues(input.status, fmt);
    var issues := attempts + tags + status;
    assert |issues| == |attempts| + |tags| + |status|;
    issues
  }

  /** The issues of time taken, cognitive load, date and notes, in
      declaration order. */
  function EffortIssues(input: EntryInput, fmt: Formats, now: int): (issues: seq<Issue>)
    ensures issues == [] <==> EffortAcceptable(input, fmt, now)
  {
    var timeTaken := TimeTakenIssues(input.timeTaken);
    var load := CognitiveLoadIssues(CognitiveLoadOrDefault(input.cognitiveLoad));
    var date := DateIssues(DateOrDefault(input.dateSolved, now), fmt, now);
    var notes := Optional(input.notes, NotesIssues);
    var issues := timeTaken + load + date + notes;
    assert |issues| == |timeTaken| + |load| + |date| + |notes|;
    issues
  }

  /** The issues of a body, field by field in declaration order: none
      exactly when the constraints hold. */
  function EntryIssues(input: EntryInput, fmt: Formats, now: int): (issues: seq<Issue>)
    ensures issues == [] <==> Acceptable(input, fmt, now)
  {
    DescriptionIssues(input, fmt) + ProgressIssues(input, fmt) + EffortIssues(input, fmt, now)
  }

  /** `problemEntrySchema.parse`. */
  function ParseEntry(input: EntryInput, fmt: Formats, now: int): (r: Result<Entry, seq<Issue>>)
    ensures r.Success? <==> Acceptable(input, fmt, now)
    ensures match r
      case Failure(issues) => issues == EntryIssues(input, fmt, now) && issues != []
      case Success(e) =>
        && e.tags == TagsOrDefault(input.tags)
        && e.cognitiveLoad == CognitiveLoadOrDefault(input.cognitiveLoad)
        && Some(e.dateSolved) == DateOf(DateOrDefault(input.dateSolved, now), fmt)
        && e.dateSolved <= now
        && e.problemId == input.problemId && e.problemTitle == input.problemTitle
        && e.problemUrl == input.problemUrl && e.userId == input.userId
        && e.difficulty == input.difficulty && e.language == input.language
        && e.attempts == input.attempts && e.status == input.status
        && e.timeTaken == input.timeTaken && e.notes == input.notes
  {
    var issues := EntryIssues(input, fmt, now);
    if issues != [] then Failure(issues)
    else
      Success(Entry(input.problemId, input.problemTitle, input.problemUrl, input.userId,
        input.difficulty, input.language, input.attempts, TagsOrDefault(input.tags),
        input.status, input.timeTaken, CognitiveLoadOrDefault(input.cognitiveLoad),
        DateOf(DateOrDefault(input.dateSolved, now), fmt).value, input.notes))
  }

  /** Leaving out the tags, the cognitive load and the date is the same as
      sending no tags, a load of 3 and the current time: the defaults are
      values the client could have sent, and they never make a body fail. */
  lemma DefaultsAccepted(input: EntryInput, fmt: Formats, now: int)
    requires input.tags.None? && input.cognitiveLoad.None? && input.dateSolved.None?
    ensures var sent := input.(tags := Some([]), cognitiveLoad := Some(3.0), dateSolved := Some(DateValue(now)));
      ParseEntry(input, fmt, now) == ParseEntry(sent, fmt, now)
  {
    var sent := input.(tags := Some([]), cognitiveLoad := Some(3.0), dateSolved := Some(DateValue(now)));
    assert TagsOrDefault(input.tags) == TagsOrDefault(sent.tags);
    assert CognitiveLoadOrDefault(input.cognitiveLoad) == CognitiveLoadOrDefault(sent.cognitiveLoad);
    assert DateOrDefault(input.dateSolved, now) == DateOrDefault(sent.dateSolved, now);
    SameParse(input, sent, fmt, now);
  }

  /** Two bodies with the same fields once defaulted have the same issues. */
  lemma SameIssues(a: EntryInput, b: EntryInput, fmt: Formats, now: int)
    requires a.problemId == b.problemId && a.problemTitle == b.problemTitle
    requires a.problemUrl == b.problemUrl && a.userId == b.userId
    requires a.difficulty == b.difficulty && a.language == b.language
    requires a.attempts == b.attempts && a.status == b.status
    requires a.timeTaken == b.timeTaken && a.notes == b.notes
    requires TagsOrDefault(a.tags) == TagsOrDefault(b.tags)
    requires CognitiveLoadOrDefault(a.cognitiveLoad) == CognitiveLoadOrDefault(b.cognitiveLoad)
    requires DateOrDefault(a.dateSolved, now) == DateOrDefault(b.dateSolved, now)
    ensures EntryIssues(a, fmt, now) == EntryIssues(b, fmt, now)
  {
    SameDescriptionIssues(a, b, fmt);
    SameProgressIssues(a, b, fmt);
    SameEffortIssues(a, b, fmt, now);
  }

  lemma SameDescriptionIssues(a: EntryInput, b: EntryInput, fmt: Formats)
    requires a.problemId == b.problemId && a.problemTitle == b.problemTitle
    requires a.problemUrl == b.problemUrl && a.userId == b.userId
    requires a.difficulty == b.difficulty && a.language == b.language
    ensures DescriptionIssues(a, fmt) == DescriptionIssues(b, fmt)
  {
  }

  lemma SameProgressIssues(a: EntryInput, b: EntryInput, fmt: Formats)
    requires a.attempts == b.attempts && a.status == b.status
    requires TagsOrDefault(a.tags) == TagsOrDefault(b.tags)
    ensures ProgressIssues(a, fmt) == ProgressIssues(b, fmt)
  {
  }

  lemma SameEffortIssues(a: EntryInput, b: EntryInput, fmt: Formats, now: int)
    requires a.timeTaken == b.timeTaken && a.notes == b.notes
    requires CognitiveLoadOrDefault(a.cognitiveLoad) == CognitiveLoadOrDefault(b.cognitiveLoad)
    requires DateOrDefault(a.dateSolved, now) == DateOrDefault(b.dateSolved, now)
    ensures EffortIssues(a, fmt, now) == EffortIssues(b, fmt, now)
  {
  }

  /** Two bodies with the same fields once defaulted parse alike. */
  lemma SameParse(a: EntryInput, b: EntryInput, fmt: Formats, now: int)
    requires a.problemId == b.problemId && a.problemTitle == b.problemTitle
    requires a.problemUrl == b.problemUrl && a.userId == b.userId
    requires a.difficulty == b.difficulty && a.language == b.language
    requires a.attempts == b.attempts && a.status == b.status
    requires a.timeTaken == b.timeTaken && a.notes == b.notes
    requires TagsOrDefault(a.tags) == TagsOrDefault(b.tags)
    requires CognitiveLoadOrDefault(a.cognitiveLoad) == CognitiveLoadOrDefault(b.cognitiveLoad)
    requires DateOrDefault(a.dateSolved, now) == DateOrDefault(b.dateSolved, now)
    ensures ParseEntry(a, fmt, now) == ParseEntry(b, fmt, now)
  {
    SameIssues(a, b, fmt, now);
  }

  /** An accepted entry that left the defaulted fields out holds no tags, a
      load of 3 and the current time. */
  lemma DefaultsFilled(input: EntryInput, fmt: Formats, now: int)
    requires input.tags.None? && input.cognitiveLoad.None? && input.dateSolved.None?
    requires ParseEntry(input, fmt, now).Success?
    ensures var e := ParseEntry(input, fmt, now).value;
      e.tags == [] && e.cognitiveLoad == 3.0 && e.dateSolved == now
  {
  }

  /** Whatever the other fields, a date text the clock cannot place is
      reported as a date in the future. */
  lemma UnparseableDateReportedAsFuture(text: string, fmt: Formats, now: int)
    requires fmt.parseDate(text).None?
    ensures DateIssues(DateText(text), fmt, now) == [Issue(Field("dateSolved"), "Date solved cannot be in the future")]
  {
  }

  /** Every id the user store hands out is a well-formed user id. */
  lemma StoredUserIdsAccepted(n: nat)
    ensures UserIdIssues(AuthService.IdString(n)) == []
  {
  }

  // ---------------------------------------------------------------------
  // updateProblemEntrySchema

  /** An update body as it arrives: every field may be absent, and a
      `userId` key may be present. */
  datatype UpdateInput = UpdateInput(
    problemId: Option<string>, problemTitle: Option<string>, problemUrl: Option<string>,
    userId: Option<string>, difficulty: Option<string>, language: Option<string>,
    attempts: Option<real>, tags: Option<seq<string>>, status: Option<string>,
    timeTaken: Option<real>, cognitiveLoad: Option<real>, dateSolved: Option<DateInput>,
    notes: Option<string>)

  /** A parsed update has no `userId` field at all. */
  datatype Update = Update(
    problemId: Option<string>, problemTitle: Option<string>, problemUrl: Option<string>,
    difficulty: Option<string>, language: Option<string>, attempts: Option<real>,
    tags: Option<seq<string>>, status: Option<string>, timeTaken: Option<real>,
    cognitiveLoad: Option<real>, dateSolved: Option<int>, notes: Option<string>)

  /** The constraints on an update's descriptive fields: those of the entry
      schema, on the fields that are present only. */
  predicate UpdateDescriptionAcceptable(u: UpdateInput, fmt: Formats) {
    && (u.problemId.Some? ==> |u.problemId.value| >= 1)
    && (u.problemTitle.Some? ==> 1 <= |u.problemTitle.value| <= 200)
    && (u.problemUrl.Some? ==> |u.problemUrl.value| >= 1 && fmt.isUrl(u.problemUrl.value))
    && (u.difficulty.Some? ==> fmt.isDifficulty(u.difficulty.value))
    && (u.language.Some? ==> 1 <= |u.language.value| <= 50)
  }

  /** The same for attempts, tags and status. */
  predicate UpdateProgressAcceptable(u: UpdateInput, fmt: Formats) {
    && (u.attempts.Some? ==> IsInteger(u.attempts.value) && 0.0 <= u.attempts.value <= 1000.0)
    && (u.tags.Some? ==> TagsAcceptable(u.tags.value))
    && (u.status.Some? ==> fmt.isStatus(u.status.value))
  }

  /** The same for time taken, cognitive load, date and notes. */
  predicate UpdateEffortAcceptable(u: UpdateInput, fmt: Formats, now: int) {
    && (u.timeTaken.Some? ==> 0.0 <= u.timeTaken.value <= 86400.0)
    && (u.cognitiveLoad.Some? ==> IsInteger(u.cognitiveLoad.value) && 1.0 <= u.cognitiveLoad.value <= 10.0)
    && (u.dateSolved.Some? ==> DateOf(u.dateSolved.value, fmt).Some? && DateOf(u.dateSolved.value, fmt).value <= now)
    && (u.notes.Some? ==> |u.notes.value| <= 1000)
  }

  /** The constraints on an update. */
  predicate UpdateAcceptable(u: UpdateInput, fmt: Formats, now: int) {
    UpdateDescriptionAcceptable(u, fmt) && UpdateProgressAcceptable(u, fmt) && UpdateEffortAcceptable(u, fmt, now)
  }

  function UpdateDescriptionIssues(u: UpdateInput, fmt: Formats): (issues: seq<Issue>)
    ensures issues == [] <==> UpdateDescriptionAcceptable(u, fmt)
  {
    var id := Optional(u.problemId, ProblemIdIssues);
    var title := Optional(u.problemTitle, TitleIssues);
    var url := Optional(u.problemUrl, s => UrlIssues(s, fmt));
    var difficulty := Optional(u.difficulty, s => DifficultyIssues(s, fmt));
    var language := Optional(u.language, LanguageIssues);
    var issues := id + title + url + difficulty + language;
    assert |issues| == |id| + |title| + |url| + |difficulty| + |language|;
    issues
  }

  function UpdateProgressIssues(u: UpdateInput, fmt: Formats): (issues: seq<Issue>)
    ensures issues == [] <==> UpdateProgressAcceptable(u, fmt)
  {
    var attempts := Optional(u.attempts, AttemptsIssues);
    var tags := Optional(u.tags, TagsIssues);
    var status := Optional(u.status, s => StatusIssues(s, fmt));
    var issues := attempts + tags + status;
    assert |issues| == |attempts| + |tags| + |status|;
    issues
  }

  function UpdateEffortIssues(u: UpdateInput, fmt: Formats, now: int): (issues: seq<Issue>)
    ensures issues == [] <==> UpdateEffortAcceptable(u, fmt, now)
  {
    var timeTaken := Optional(u.timeTaken, TimeTakenIssues);
    var load := Optional(u.cognitiveLoad, CognitiveLoadIssues);
    var date := Optional(u.dateSolved, d => DateIssues(d, fmt, now));
    var notes := Optional(u.notes, NotesIssues);
    var issues := timeTaken + load + date + notes;
    assert |issues| == |timeTaken| + |load| + |date| + |notes|;
    issues
  }

  /** Each present field is checked as in the entry schema; an absent one is
      not checked and gets no default. */
  function UpdateIssues(u: UpdateInput, fmt: Formats, now: int): (issues: seq<Issue>)
    ensures issues == [] <==> UpdateAcceptable(u, fmt, now)
  {
    UpdateDescriptionIssues(u, fmt) + UpdateProgressIssues(u, fmt) + UpdateEffortIssues(u, fmt, now)
  }

  function ConvertedDate(d: Option<DateInput>, fmt: Formats): Option<int> {
    match d
    case None => None
    case Some(x) => DateOf(x, fmt)
  }

  /** `updateProblemEntrySchema.parse`. */
  function ParseUpdate(u: UpdateInput, fmt: Formats, now: int): (r: Result<Update, seq<Issue>>)
    ensures r.Success? <==> UpdateIssues(u, fmt, now) == []
    ensures r.Failure? ==> r.error == UpdateIssues(u, fmt, now)
    ensures r.Success? ==>
      && r.value.tags == u.tags && r.value.cognitiveLoad == u.cognitiveLoad
      && (r.value.dateSolved.Some? <==> u.dateSolved.Some?)
      && (r.value.dateSolved.Some? ==> r.value.dateSolved.value <= now)
    ensures r.Success? ==>
      && r.value.problemId == u.problemId && r.value.problemTitle == u.problemTitle
      && r.value.problemUrl == u.problemUrl && r.value.difficulty == u.difficulty
      && r.value.language == u.language && r.value.attempts == u.attempts
      && r.value.status == u.status && r.value.timeTaken == u.timeTaken && r.value.notes == u.notes
      && (u.dateSolved.Some? ==> r.value.dateSolved == DateOf(u.dateSolved.value, fmt))
  {
    var issues := UpdateIssues(u, fmt, now);
    if issues != [] then Failure(issues)
    else
      assert u.dateSolved.Some? ==> DateIssues(u.dateSolved.value, fmt, now) == [];
      Success(Update(u.problemId, u.problemTitle, u.problemUrl, u.difficulty, u.language,
        u.attempts, u.tags, u.status, u.timeTaken, u.cognitiveLoad,
        ConvertedDate(u.dateSolved, fmt), u.notes))
  }

  /** `userId` is omitted from the update schema: whatever an update body
      says about it, even a malformed id, the outcome is the same. */
  lemma UpdateIgnoresUserId(u: UpdateInput, userId: Option<string>, fmt: Formats, now: int)
    ensures ParseUpdate(u.(userId := userId), fmt, now) == ParseUpdate(u, fmt, now)
  {
  }

  /** An empty update body is accepted and changes nothing. */
  lemma EmptyUpdateAccepted(userId: Option<string>, fmt: Formats, now: int)
    ensures var u := UpdateInput(None, None, None, userId, None, None, None, None, None, None, None, None, None);
      ParseUpdate(u, fmt, now) == Success(Update(None, None, None, None, None, None, None, None, None, None, None, None))
  {
  }

  /** A full entry sent as an update. */
  function AsUpdate(input: EntryInput): UpdateInput {
    UpdateInput(Some(input.problemId), Some(input.problemTitle), Some(input.problemUrl),
      Some(input.userId), Some(input.difficulty), Some(input.language), Some(input.attempts),
      input.tags, Some(input.status), Some(input.timeTaken), input.cognitiveLoad,
      input.dateSolved, input.notes)
  }

  /** The update schema is weaker than the entry schema: a body the entry
      schema accepts is accepted as an update, with the same values for the
      fields it sent; the fields it left out get no default as an update. */
  lemma AcceptedEntryIsAcceptedUpdate(input: EntryInput, fmt: Formats, now: int)
    requires ParseEntry(input, fmt, now).Success?
    ensures ParseUpdate(AsUpdate(input), fmt, now).Success?
    ensures var e := ParseEntry(input, fmt, now).value;
      var p := ParseUpdate(AsUpdate(input), fmt, now).value;
      && p.problemId == Some(e.problemId) && p.problemTitle == Some(e.problemTitle)
      && p.problemUrl == Some(e.problemUrl) && p.difficulty == Some(e.difficulty)
      && p.language == Some(e.language) && p.attempts == Some(e.attempts)
      && p.status == Some(e.status) && p.timeTaken == Some(e.timeTaken) && p.notes == e.notes
      && (input.tags.Some? ==> p.tags == Some(e.tags))
      && (input.cognitiveLoad.Some? ==> p.cognitiveLoad == Some(e.cognitiveLoad))
      && (input.dateSolved.Some? ==> p.dateSolved == Some(e.dateSolved))
      && (input.tags.None? ==> p.tags.None?)
      && (input.cognitiveLoad.None? ==> p.cognitiveLoad.None?)
      && (input.dateSolved.None? ==> p.dateSolved.None?)
  {
    var e := ParseEntry(input, fmt, now).value;
    if input.tags.Some? {
      assert e.tags == input.tags.value;
    }
    if input.cognitiveLoad.Some? {
      assert e.cognitiveLoad == input.cognitiveLoad.value;
    }
    if input.dateSolved.Some? {
      assert DateOrDefault(input.dateSolved, now) == input.dateSolved.value;
      assert Some(e.dateSolved) == DateOf(input.dateSolved.value, fmt);
    }
    FullUpdateFields(input, fmt, now);
  }

  /** A body the entry schema accepts, sent in full as an update, is accepted
      and keeps every field as sent, the date converted. */
  lemma FullUpdateFields(input: EntryInput, fmt: Formats, now: int)
    requires ParseEntry(input, fmt, now).Success?
    ensures ParseUpdate(AsUpdate(input), fmt, now).Success?
    ensures var p := ParseUpdate(AsUpdate(input), fmt, now).value;
      && p.problemId == Some(input.problemId) && p.problemTitle == Some(input.problemTitle)
      && p.problemUrl == Some(input.problemUrl) && p.difficulty == Some(input.difficulty)
      && p.language == Some(input.language) && p.attempts == Some(input.attempts)
      && p.status == Some(input.status) && p.timeTaken == Some(input.timeTaken) && p.notes == input.notes
      && p.tags == input.tags && p.cognitiveLoad == input.cognitiveLoad
      && p.dateSolved == ConvertedDate(input.dateSolved, fmt)
  {
    var u := AsUpdate(input);
    assert Acceptable(input, fmt, now);
    AcceptableAsUpdate(input, fmt, now);
    assert UpdateIssues(u, fmt, now) == [];
    var p := ParseUpdate(u, fmt, now).value;
    if input.dateSolved.Some? {
      assert p.dateSolved == DateOf(input.dateSolved.value, fmt);
    }
  }

  lemma AcceptableAsUpdate(input: EntryInput, fmt: Formats, now: int)
    requires Acceptable(input, fmt, now)
    ensures UpdateAcceptable(AsUpdate(input), fmt, now)
  {
    assert UpdateDescriptionAcceptable(AsUpdate(input), fmt);
    ProgressAsUpdate(input, fmt);
    EffortAsUpdate(input, fmt, now);
  }

  lemma ProgressAsUpdate(input: EntryInput, fmt: Formats)
    requires ProgressAcceptable(input, fmt)
    ensures UpdateProgressAcceptable(AsUpdate(input), fmt)
  {
    var u := AsUpdate(input);
    assert u.attempts == Some(input.attempts) && u.status == Some(input.status);
    if u.tags.Some? {
      assert u.tags.value == TagsOrDefault(input.tags);
    }
  }

  lemma EffortAsUpdate(input: EntryInput, fmt: Formats, now: int)
    requires EffortAcceptable(input, fmt, now)
    ensures UpdateEffortAcceptable(AsUpdate(input), fmt, now)
  {
    var u := AsUpdate(input);
    assert u.timeTaken == Some(input.timeTaken) && u.notes == input.notes;
    if u.cognitiveLoad.Some? {
      assert u.cognitiveLoad.value == CognitiveLoadOrDefault(input.cognitiveLoad);
    }
    if u.dateSolved.Some? {
      assert u.dateSolved.value == DateOrDefault(input.dateSolved, now);
    }
  }

  // ---------------------------------------------------------------------
  // problemEntryParamsSchema

  /** The route id: required, then the ObjectId pattern, under the key `id`. */
  function ParamsIssues(id: string): (issues: seq<Issue>)
    ensures issues == [] <==> IsObjectIdText(id)
    ensures |id| == 0 ==> issues == [Issue(Field("id"), "Problem ID is required"), Issue(Field("id"), "Invalid Problem ID format")]
    ensures forall k :: 0 <= k < |issues| ==> issues[k].path == [Key("id")]
  {
    ObjectIdIssues("id", "Problem ID is required", "Invalid Problem ID format", id)
  }

  /** The route id and the entry's user id follow the same rule. */
  lemma ParamsAndUserIdAgree(s: string)
    ensures ParamsIssues(s) == [] <==> UserIdIssues(s) == []
  {
  }
}
