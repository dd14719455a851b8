/** The four issue tools: their argument schemas, the options each handler
    passes to the client, and the compact records each builds from the
    remote payload. */
module IssueTools {
  import opened Text
  import opened Json
  import opened Results
  import opened JiraTypes
  import opened Client
  import opened Schema

  // ---------------------------------------------------------------------
  // Schemas and typed inputs

  const SearchIssuesSchema: ObjectSchema := [
    FieldSpec("jql", StringKind, Required),
    FieldSpec("maxResults", NumberKind, Default(NumArg(50))),
    FieldSpec("fields", StringArrayKind, Optional),
    FieldSpec("expand", StringArrayKind, Optional),
    FieldSpec("properties", StringArrayKind, Optional),
    FieldSpec("startAt", NumberKind, Default(NumArg(0)))]

  const GetIssueSchema: ObjectSchema := [
    FieldSpec("issueIdOrKey", StringKind, Required),
    FieldSpec("fields", StringArrayKind, Optional),
    FieldSpec("expand", StringArrayKind, Optional),
    FieldSpec("properties", StringArrayKind, Optional),
    FieldSpec("updateHistory", BoolKind, Optional)]

  const GetIssueCommentsSchema: ObjectSchema := [
    FieldSpec("issueIdOrKey", StringKind, Required),
    FieldSpec("maxResults", NumberKind, Default(NumArg(50))),
    FieldSpec("startAt", NumberKind, Default(NumArg(0)))]

  const GetIssueTransitionsSchema: ObjectSchema := [
    FieldSpec("issueIdOrKey", StringKind, Required),
    FieldSpec("includeUnavailable", BoolKind, Default(BoolArg(false)))]

  datatype SearchIssuesInput = SearchIssuesInput(
    jql: string,
    maxResults: int,
    fields: Option<seq<string>>,
    expand: Option<seq<string>>,
    properties: Option<seq<string>>,
    startAt: int)

  datatype GetIssueInput = GetIssueInput(
    issueIdOrKey: string,
    fields: Option<seq<string>>,
    expand: Option<seq<string>>,
    properties: Option<seq<string>>,
    updateHistory: Option<bool>)

  datatype CommentsInput = CommentsInput(issueIdOrKey: string, maxResults: int, startAt: int)

  datatype TransitionsInput = TransitionsInput(issueIdOrKey: string, includeUnavailable: bool)

  function SearchIssuesInputOf(args: Args): SearchIssuesInput
    requires Conforms(SearchIssuesSchema, args)
  {
    assert FieldConforms(SearchIssuesSchema[0], args);
    assert FieldConforms(SearchIssuesSchema[1], args);
    assert FieldConforms(SearchIssuesSchema[5], args);
    SearchIssuesInput(args["jql"].s, args["maxResults"].n, OptStrs(args, "fields"),
                      OptStrs(args, "expand"), OptStrs(args, "properties"), args["startAt"].n)
  }

  function GetIssueInputOf(args: Args): GetIssueInput
    requires Conforms(GetIssueSchema, args)
  {
    assert FieldConforms(GetIssueSchema[0], args);
    GetIssueInput(args["issueIdOrKey"].s, OptStrs(args, "fields"), OptStrs(args, "expand"),
                  OptStrs(args, "properties"), OptBool(args, "updateHistory"))
  }

  function CommentsInputOf(args: Args): CommentsInput
    requires Conforms(GetIssueCommentsSchema, args)
  {
    assert FieldConforms(GetIssueCommentsSchema[0], args);
    assert FieldConforms(GetIssueCommentsSchema[1], args);
    assert FieldConforms(GetIssueCommentsSchema[2], args);
    CommentsInput(args["issueIdOrKey"].s, args["maxResults"].n, args["startAt"].n)
  }

  function TransitionsInputOf(args: Args): TransitionsInput
    requires Conforms(GetIssueTransitionsSchema, args)
  {
    assert FieldConforms(GetIssueTransitionsSchema[0], args);
    assert FieldConforms(GetIssueTransitionsSchema[1], args);
    TransitionsInput(args["issueIdOrKey"].s, args["includeUnavailable"].b)
  }

  /** Names are distinct and defaults have their fields' kinds. */
  lemma SchemasWellFormed()
    ensures WellFormed(SearchIssuesSchema) && WellFormed(GetIssueSchema)
    ensures WellFormed(GetIssueCommentsSchema) && WellFormed(GetIssueTransitionsSchema)
  {
  }

  /** A search call's validated input: `jql` as given, and `maxResults` and
      `startAt` as given or else 50 and 0. */
  lemma SearchIssuesArguments(raw: map<string, Json>)
    ensures var v := Validate(SearchIssuesSchema, Some(raw));
      v.Accepted? ==>
        Conforms(SearchIssuesSchema, v.args) &&
        var input := SearchIssuesInputOf(v.args);
        "jql" in raw && raw["jql"] == JString(input.jql) &&
        ("maxResults" in raw ==> raw["maxResults"] == JNumber(input.maxResults)) &&
        ("maxResults" !in raw ==> input.maxResults == 50) &&
        ("startAt" in raw ==> raw["startAt"] == JNumber(input.startAt)) &&
        ("startAt" !in raw ==> input.startAt == 0)
  {
    var v := Validate(SearchIssuesSchema, Some(raw));
    if v.Accepted? {
      SchemasWellFormed();
      AcceptedConforms(SearchIssuesSchema, raw);
      AcceptedValue(SearchIssuesSchema, raw, 0);
      AcceptedValue(SearchIssuesSchema, raw, 1);
      AcceptedValue(SearchIssuesSchema, raw, 5);
    }
  }

  /** A comments call defaults to 50 comments from offset 0. */
  lemma CommentsArguments(raw: map<string, Json>)
    ensures var v := Validate(GetIssueCommentsSchema, Some(raw));
      v.Accepted? ==>
        Conforms(GetIssueCommentsSchema, v.args) &&
        var input := CommentsInputOf(v.args);
        ("maxResults" !in raw ==> input.maxResults == 50) &&
        ("startAt" !in raw ==> input.startAt == 0)
  {
    var v := Validate(GetIssueCommentsSchema, Some(raw));
    if v.Accepted? {
      SchemasWellFormed();
      AcceptedConforms(GetIssueCommentsSchema, raw);
      AcceptedValue(GetIssueCommentsSchema, raw, 1);
      AcceptedValue(GetIssueCommentsSchema, raw, 2);
    }
  }

  /** A transitions call leaves out unavailable transitions unless asked. */
  lemma TransitionsArguments(raw: map<string, Json>)
    ensures var v := Validate(GetIssueTransitionsSchema, Some(raw));
      v.Accepted? ==>
        Conforms(GetIssueTransitionsSchema, v.args) &&
        ("includeUnavailable" !in raw ==> !TransitionsInputOf(v.args).includeUnavailable)
  {
    var v := Validate(GetIssueTransitionsSchema, Some(raw));
    if v.Accepted? {
      SchemasWellFormed();
      AcceptedConforms(GetIssueTransitionsSchema, raw);
      AcceptedValue(GetIssueTransitionsSchema, raw, 1);
    }
  }

  // ---------------------------------------------------------------------
  // jira_search_issues

  datatype IssueTypeRef = IssueTypeRef(id: Option<string>, name: Option<string>, subtask: Option<bool>)

  datatype IssueSummary = IssueSummary(
    key: string,
    id: string,
    summary: string,
    status: Option<string>,
    priority: Option<string>,
    assignee: string,
    reporter: Option<string>,
    created: Option<string>,
    updated: Option<string>,
    project: Option<string>,
    issueType: IssueTypeRef,
    labels: Option<seq<string>>,
    components: Option<seq<string>>)

  datatype SearchIssuesData = SearchIssuesData(
    total: int,
    startAt: int,
    maxResults: int,
    isLast: bool,
    issues: seq<IssueSummary>)

  /** `assignee?.displayName || 'Unassigned'`. */
  function AssigneeName(assignee: Option<User>): (r: string)
    ensures assignee.Some? && assignee.value.displayName != "" ==> r == assignee.value.displayName
    ensures assignee.None? || assignee.value.displayName == "" ==> r == "Unassigned"
  {
    if assignee.Some? && assignee.value.displayName != "" then assignee.value.displayName else "Unassigned"
  }

  function ComponentNames(components: seq<Component>): (r: seq<string>)
    ensures |r| == |components|
    ensures forall i :: 0 <= i < |components| ==> r[i] == components[i].name
  {
    seq(|components|, i requires 0 <= i < |components| => components[i].name)
  }

  function SummarizeIssue(issue: Issue): (r: IssueSummary)
    ensures r.key == issue.key && r.id == issue.id && r.summary == issue.fields.summary
    ensures r.assignee == AssigneeName(issue.fields.assignee)
    ensures issue.fields.components.Some? <==> r.components.Some?
    ensures issue.fields.components.Some? ==> r.components.value == ComponentNames(issue.fields.components.value)
    ensures r.labels == issue.fields.labels
  {
    var f := issue.fields;
    IssueSummary(
      issue.key, issue.id, f.summary,
      f.status.Map((s: Status) => s.name),
      f.priority.Map((p: Priority) => p.name),
      AssigneeName(f.assignee),
      f.reporter.Map((u: User) => u.displayName),
      f.created, f.updated,
      f.project.Map((p: Project) => p.name),
      IssueTypeRef(f.issuetype.Map((t: IssueType) => t.id), f.issuetype.Map((t: IssueType) => t.name),
                   if f.issuetype.Some? then f.issuetype.value.subtask else None),
      f.labels,
      f.components.Map(ComponentNames))
  }

  /** The page a search returns: counters passed through, `isLast` computed,
      and one summary per issue, in order. */
  function SummarizeSearch(result: SearchResults): (r: SearchIssuesData)
    ensures r.total == result.total && r.startAt == result.startAt && r.maxResults == result.maxResults
    ensures r.isLast <==> result.startAt + |result.issues| >= result.total
    ensures |r.issues| == |result.issues|
    ensures forall i :: 0 <= i < |result.issues| ==> r.issues[i] == SummarizeIssue(result.issues[i])
  {
    SearchIssuesData(
      result.total, result.startAt, result.maxResults,
      result.startAt + |result.issues| >= result.total,
      seq(|result.issues|, i requires 0 <= i < |result.issues| => SummarizeIssue(result.issues[i])))
  }

  function SearchIssuesOptions(input: SearchIssuesInput): SearchOptions {
    SearchOptions(Some(input.startAt), Some(input.maxResults), input.fields, input.expand, input.properties, None)
  }

  /** The search handler: one request, the page summarised, or the failure. */
  function SearchIssues(client: JiraClient, input: SearchIssuesInput, remote: Remote): (r: ToolResult<SearchIssuesData>)
    ensures var reply := remote.search(client.SearchIssuesRequest(input.jql, SearchIssuesOptions(input)));
      (r.Success? <==> reply.Ok?) &&
      (reply.Ok? ==> r.data == SummarizeSearch(reply.payload)) &&
      (reply.Err? ==> r.error == HandleError(reply.error))
  {
    Handle(client.SearchIssues(remote, input.jql, SearchIssuesOptions(input)), SummarizeSearch)
  }

  /** The request of a search asks for the page size the caller gave, unless
      it is 0, and starts where the caller said. */
  lemma SearchIssuesRequestParameters(client: JiraClient, input: SearchIssuesInput)
    ensures var q := client.SearchIssuesRequest(input.jql, SearchIssuesOptions(input)).query;
      q["startAt"] == QNumber(input.startAt) &&
      (input.maxResults != 0 ==> q["maxResults"] == QNumber(input.maxResults)) &&
      q["maxResults"] != QNumber(0) &&
      "validateQuery" !in q
  {
    var options := SearchIssuesOptions(input);
    var q := client.SearchIssuesRequest(input.jql, options).query;
    assert "validateQuery" !in client.SearchExtras(options);
    assert |"validateQuery"| == 13;
    assert "validateQuery" !in {"jql", "startAt", "maxResults", "fields"};
  }

  // ---------------------------------------------------------------------
  // jira_get_issue

  datatype StatusRef = StatusRef(name: Option<string>, category: Option<string>)
  datatype PriorityRef = PriorityRef(name: Option<string>, id: Option<string>)
  /** A person; the handler gives `null` instead when the user is absent. */
  datatype Person = Person(displayName: string, accountId: string, email: Option<string>)
  datatype ProjectRef = ProjectRef(key: Option<string>, name: Option<string>)
  datatype IssueTypeBrief = IssueTypeBrief(name: Option<string>, subtask: Option<bool>)
  datatype ComponentRef = ComponentRef(id: string, name: string)
  datatype VersionRef = VersionRef(id: string, name: string, released: Option<bool>)

  datatype IssueDetails = IssueDetails(
    key: string,
    id: string,
    summary: string,
    description: Nullable<string>,
    status: StatusRef,
    priority: PriorityRef,
    assignee: Option<Person>,
    reporter: Option<Person>,
    created: Option<string>,
    updated: Option<string>,
    resolved: Nullable<string>,
    project: ProjectRef,
    issueType: IssueTypeBrief,
    labels: Option<seq<string>>,
    components: Option<seq<ComponentRef>>,
    fixVersions: Option<seq<VersionRef>>,
    customFields: seq<(string, Json)>)

  /** `user ? {displayName, accountId, email} : null`. */
  function PersonOf(user: Option<User>): (r: Option<Person>)
    ensures r.None? <==> user.None?
    ensures user.Some? ==> r.value.displayName == user.value.displayName
                           && r.value.accountId == user.value.accountId
                           && r.value.email == user.value.emailAddress
  {
    if user.Some? then Some(Person(user.value.displayName, user.value.accountId, user.value.emailAddress))
    else None
  }

  /** The prefix that marks a custom field key. */
  const CustomFieldPrefix := "customfield_"

  /** The issue's custom fields: the entries whose key starts with
      `customfield_`, keeping their values and their order. */
  function CustomFields(entries: seq<(string, Json)>): seq<(string, Json)>
    decreases |entries|
  {
    if entries == [] then []
    else
      var rest := CustomFields(entries[1..]);
      if StartsWith(entries[0].0, CustomFieldPrefix) then [entries[0]] + rest else rest
  }

  /** Exactly the entries with a `customfield_` key are kept, with their values. */
  lemma {:induction false} CustomFieldsExact(entries: seq<(string, Json)>, key: string, value: Json)
    ensures (key, value) in CustomFields(entries) <==>
              (key, value) in entries && StartsWith(key, CustomFieldPrefix)
    decreases |entries|
  {
    if entries != [] {
      CustomFieldsExact(entries[1..], key, value);
      assert entries == [entries[0]] + entries[1..];
    }
  }

  /** `a` is `b` with some entries left out and the others in their order. */
  predicate Subsequence(a: seq<(string, Json)>, b: seq<(string, Json)>)
    decreases |b|
  {
    if a == [] then true
    else if b == [] then false
    else if a[0] == b[0] then Subsequence(a[1..], b[1..])
    else Subsequence(a, b[1..])
  }

  /** The kept entries are in their original order: a subsequence of the
      input, and distinct keys stay distinct. */
  lemma {:induction false} CustomFieldsOrdered(entries: seq<(string, Json)>)
    ensures |CustomFields(entries)| <= |entries|
    ensures Subsequence(CustomFields(entries), entries)
    ensures DistinctKeys(entries) ==> DistinctKeys(CustomFields(entries))
    decreases |entries|
  {
    if entries != [] {
      CustomFieldsOrdered(entries[1..]);
      var rest := CustomFields(entries[1..]);
      if StartsWith(entries[0].0, CustomFieldPrefix) {
        assert ([entries[0]] + rest)[1..] == rest;
      } else if rest != [] {
        CustomFieldsExact(entries[1..], rest[0].0, rest[0].1);
        assert rest[0] in rest;
        assert rest[0] != entries[0];
      }
      if DistinctKeys(entries) {
        assert DistinctKeys(entries[1..]) by {
          forall i, j | 0 <= i < j < |entries[1..]| ensures entries[1..][i].0 != entries[1..][j].0 {
            assert entries[1..][i] == entries[i + 1] && entries[1..][j] == entries[j + 1];
          }
        }
        if StartsWith(entries[0].0, CustomFieldPrefix) {
          forall k | 0 <= k < |rest| ensures rest[k].0 != entries[0].0 {
            CustomFieldsExact(entries[1..], rest[k].0, rest[k].1);
            assert rest[k] in rest;
            var m :| 0 <= m < |entries[1..]| && entries[1..][m] == rest[k];
            assert entries[m + 1] == rest[k];
          }
          var r := [entries[0]] + rest;
          forall i, j | 0 <= i < j < |r| ensures r[i].0 != r[j].0 {
            if i > 0 {
              assert r[i] == rest[i - 1] && r[j] == rest[j - 1];
            } else {
              assert r[j] == rest[j - 1];
            }
          }
        }
      }
    }
  }

  /** None of the named properties of `fields` is a custom field, so filtering
      all of `Object.entries(fields)` keeps only entries of `others`. */
  lemma NamedFieldsAreNotCustom()
    ensures forall name :: name in {"summary", "description", "status", "priority", "assignee",
                                     "reporter", "created", "updated", "resolved", "project",
                                     "issuetype", "labels", "components", "fixVersions", "versions"}
                           ==> !StartsWith(name, CustomFieldPrefix)
  {
  }

  function DetailIssue(issue: Issue): (r: IssueDetails)
    ensures r.key == issue.key && r.id == issue.id
    ensures r.assignee == PersonOf(issue.fields.assignee)
    ensures r.reporter == PersonOf(issue.fields.reporter)
    ensures r.description == issue.fields.description && r.resolved == issue.fields.resolved
    ensures r.customFields == CustomFields(issue.fields.others)
  {
    var f := issue.fields;
    IssueDetails(
      issue.key, issue.id, f.summary, f.description,
      StatusRef(f.status.Map((s: Status) => s.name),
                if f.status.Some? then f.status.value.statusCategory.Map((c: StatusCategory) => c.name) else None),
      PriorityRef(f.priority.Map((p: Priority) => p.name), f.priority.Map((p: Priority) => p.id)),
      PersonOf(f.assignee),
      PersonOf(f.reporter),
      f.created, f.updated, f.resolved,
      ProjectRef(f.project.Map((p: Project) => p.key), f.project.Map((p: Project) => p.name)),
      IssueTypeBrief(f.issuetype.Map((t: IssueType) => t.name),
                     if f.issuetype.Some? then f.issuetype.value.subtask else None),
      f.labels,
      f.components.Map((cs: seq<Component>) =>
        seq(|cs|, i requires 0 <= i < |cs| => ComponentRef(cs[i].id, cs[i].name))),
      f.fixVersions.Map((vs: seq<Version>) =>
        seq(|vs|, i requires 0 <= i < |vs| => VersionRef(vs[i].id, vs[i].name, vs[i].released))),
      CustomFields(f.others))
  }

  function GetIssueOptions(input: GetIssueInput): IssueOptions {
    IssueOptions(input.fields, input.expand, input.properties, input.updateHistory)
  }

  function GetIssue(client: JiraClient, input: GetIssueInput, remote: Remote): (r: ToolResult<IssueDetails>)
    ensures var reply := remote.issue(client.GetIssueRequest(input.issueIdOrKey, GetIssueOptions(input)));
      (r.Success? <==> reply.Ok?) &&
      (reply.Ok? ==> r.data == DetailIssue(reply.payload)) &&
      (reply.Err? ==> r.error == HandleError(reply.error))
  {
    Handle(client.GetIssue(remote, input.issueIdOrKey, GetIssueOptions(input)), DetailIssue)
  }

  // ---------------------------------------------------------------------
  // jira_get_issue_comments

  datatype CommentSummary = CommentSummary(
    id: string,
    author: Option<string>,
    body: Option<string>,
    created: string,
    updated: string,
    updateAuthor: Option<string>)

  datatype CommentsData = CommentsData(total: int, startAt: int, maxResults: int, comments: seq<CommentSummary>)

  /** A string body as it is; any other body serialised; an absent body stays
      absent, as serialising `undefined` yields `undefined`. */
  function BodyText(body: Option<Json>): (r: Option<string>)
    ensures r.None? <==> body.None?
    ensures body.Some? && body.value.JString? ==> r == Some(body.value.s)
    ensures body.Some? && !body.value.JString? ==> r == Some(Serialize(body.value))
  {
    match body
    case None => None
    case Some(JString(s)) => Some(s)
    case Some(j) => Some(Serialize(j))
  }

  function SummarizeComment(c: Comment): CommentSummary {
    CommentSummary(c.id, c.author.Map((u: User) => u.displayName), BodyText(c.body),
                   c.created, c.updated, c.updateAuthor.Map((u: User) => u.displayName))
  }

  function SummarizeComments(page: CommentPage): (r: CommentsData)
    ensures r.total == page.total && r.startAt == page.startAt && r.maxResults == page.maxResults
    ensures |r.comments| == |page.comments|
    ensures forall i :: 0 <= i < |page.comments| ==>
              r.comments[i].id == page.comments[i].id && r.comments[i].body == BodyText(page.comments[i].body)
  {
    CommentsData(page.total, page.startAt, page.maxResults,
                 seq(|page.comments|, i requires 0 <= i < |page.comments| => SummarizeComment(page.comments[i])))
  }

  function CommentOptionsOf(input: CommentsInput): CommentOptions {
    CommentOptions(Some(input.startAt), Some(input.maxResults), None, None)
  }

  function GetIssueComments(client: JiraClient, input: CommentsInput, remote: Remote): (r: ToolResult<CommentsData>)
    ensures var reply := remote.comments(client.GetIssueCommentsRequest(input.issueIdOrKey, CommentOptionsOf(input)));
      (r.Success? <==> reply.Ok?) &&
      (reply.Ok? ==> r.data == SummarizeComments(reply.payload)) &&
      (reply.Err? ==> r.error == HandleError(reply.error))
  {
    Handle(client.GetIssueComments(remote, input.issueIdOrKey, CommentOptionsOf(input)), SummarizeComments)
  }

  // ---------------------------------------------------------------------
  // jira_get_issue_transitions

  datatype StatusBrief = StatusBrief(id: string, name: string, statusCategory: Option<string>)

  datatype TransitionSummary = TransitionSummary(
    id: string,
    name: string,
    to: StatusBrief,
    isAvailable: bool,
    hasScreen: Option<bool>,
    isGlobal: Option<bool>,
    isInitial: Option<bool>)

  /** `flag !== false`. */
  function Available(flag: Option<bool>): (r: bool)
    ensures !r <==> flag == Some(false)
  {
    !(flag.Some? && !flag.value)
  }

  function SummarizeTransition(t: Transition): TransitionSummary {
    TransitionSummary(t.id, t.name,
                      StatusBrief(t.to.id, t.to.name, t.to.statusCategory.Map((c: StatusCategory) => c.name)),
                      Available(t.isAvailable), t.hasScreen, t.isGlobal, t.isInitial)
  }

  datatype TransitionsData = TransitionsData(transitions: seq<TransitionSummary>)

  /** One summary per transition, in order; a transition is unavailable only
      when the server says so explicitly. */
  function SummarizeTransitions(ts: seq<Transition>): (r: TransitionsData)
    ensures |r.transitions| == |ts|
    ensures forall i :: 0 <= i < |ts| ==>
              r.transitions[i].id == ts[i].id && r.transitions[i].name == ts[i].name &&
              (!r.transitions[i].isAvailable <==> ts[i].isAvailable == Some(false))
  {
    TransitionsData(seq(|ts|, i requires 0 <= i < |ts| => SummarizeTransition(ts[i])))
  }

  function TransitionOptionsOf(input: TransitionsInput): TransitionOptions {
    TransitionOptions(None, None, Some(input.includeUnavailable), None)
  }

  function GetIssueTransitions(client: JiraClient, input: TransitionsInput, remote: Remote): (r: ToolResult<TransitionsData>)
    ensures var reply := remote.transitions(client.GetIssueTransitionsRequest(input.issueIdOrKey, TransitionOptionsOf(input)));
      (r.Success? <==> reply.Ok?) &&
      (reply.Ok? ==> r.data == SummarizeTransitions(reply.payload)) &&
      (reply.Err? ==> r.error == HandleError(reply.error))
  {
    Handle(client.GetIssueTransitions(remote, input.issueIdOrKey, TransitionOptionsOf(input)), SummarizeTransitions)
  }

  /** The transitions request always says whether to include unavailable ones. */
  lemma TransitionsRequestFlag(client: JiraClient, input: TransitionsInput)
    ensures var q := client.GetIssueTransitionsRequest(input.issueIdOrKey, TransitionOptionsOf(input)).query;
      "includeUnavailableTransitions" in q && q["includeUnavailableTransitions"] == QBool(input.includeUnavailable)
  {
  }
}
