/** The JIRA REST client: the request each method sends (path, and query
    parameters after per-call options have been layered over the frozen
    configuration and the literal defaults), and the normalisation of every
    failed request into one message. The HTTP transport is the oracle
    `Remote`: for each endpoint, a function from the request sent to what the
    server answered. */
module Client {
  import opened Text
  import opened Results
  import opened JiraTypes

  /** A query parameter value. Parameters whose value is `undefined` are not
      sent and are absent from the map. */
  datatype QueryValue = QString(s: string) | QNumber(n: int) | QBool(b: bool)

  type Query = map<string, QueryValue>

  /** A GET request: full URL (base URL followed by the path) and query. */
  datatype Get = Get(url: string, query: Query)

  /** An HTTP response that is not a success. */
  datatype HttpResponse = HttpResponse(status: int, data: ErrorResponse)

  /** What the transport rejects with: a response when one was received,
      whether a request was sent, and the transport's own message. */
  datatype HttpError = HttpError(response: Option<HttpResponse>, request: bool, message: string)

  datatype Reply<+T> = Ok(payload: T) | Err(error: HttpError)

  /** The remote server, one function per endpoint payload type. */
  datatype Remote = Remote(
    search: Get -> Reply<SearchResults>,
    issue: Get -> Reply<Issue>,
    comments: Get -> Reply<CommentPage>,
    transitions: Get -> Reply<seq<Transition>>,
    projects: Get -> Reply<seq<Project>>,
    project: Get -> Reply<ProjectDetails>,
    projectSearch: Get -> Reply<ProjectPage>,
    user: Get -> Reply<User>,
    users: Get -> Reply<seq<User>>,
    issueTypes: Get -> Reply<IssueTypesPage>,
    issueType: Get -> Reply<IssueTypeMeta>,
    editMeta: Get -> Reply<EditMeta>)

  // ---------------------------------------------------------------------
  // Defaulting

  /** `o || fallback` for an optional number: `undefined` and `0` are falsy. */
  function OrNumber(o: Option<int>, fallback: int): (r: int)
    ensures o.Some? && o.value != 0 ==> r == o.value
    ensures o.None? || o.value == 0 ==> r == fallback
  {
    if o.Some? && o.value != 0 then o.value else fallback
  }

  /** `options?.startAt || 0`. */
  function StartAt(requested: Option<int>): (r: int)
    ensures requested.Some? ==> r == requested.value
    ensures requested.None? ==> r == 0
  {
    OrNumber(requested, 0)
  }

  /** The literal page size used when neither the call nor the configuration
      gives a truthy one. */
  const DefaultPageSize := 50

  /** `options?.maxResults || this.config.maxResults || 50`. */
  function PageSize(requested: Option<int>, configured: Option<int>): (r: int)
    ensures r != 0
    ensures requested.Some? && requested.value != 0 ==> r == requested.value
    ensures (requested.None? || requested.value == 0) && configured.Some? && configured.value != 0 ==>
                r == configured.value
    ensures (requested.None? || requested.value == 0) && (configured.None? || configured.value == 0) ==>
                r == DefaultPageSize
  {
    OrNumber(requested, OrNumber(configured, DefaultPageSize))
  }

  /** `options?.fields?.join(',') || defaults.join(',')`. */
  function FieldList(requested: Option<seq<string>>, defaults: seq<string>): (r: string)
    ensures requested.Some? && Join(requested.value, ",") != "" ==> r == Join(requested.value, ",")
    ensures requested.None? || requested.value == [] || requested.value == [""] ==> r == Join(defaults, ",")
  {
    if requested.Some? && Join(requested.value, ",") != "" then Join(requested.value, ",")
    else Join(defaults, ",")
  }

  /** The fields a search returns when the caller names none. */
  const SearchDefaultFields: seq<string> := [
    "summary", "status", "priority", "assignee", "reporter",
    "created", "updated", "issuetype", "project", "labels", "components"]

  /** The fields an issue fetch returns when the caller names none. */
  const IssueDefaultFields: seq<string> := [
    "summary", "status", "priority", "assignee", "reporter",
    "created", "updated", "description", "issuetype", "project",
    "resolution", "resolutiondate", "duedate", "labels",
    "components", "fixVersions", "versions"]

  /** `baseUrl.endsWith('/') ? baseUrl.slice(0, -1) : baseUrl`. */
  function NormalizeBaseUrl(baseUrl: string): (r: string)
    ensures EndsWith(baseUrl, "/") ==> r + "/" == baseUrl
    ensures !EndsWith(baseUrl, "/") ==> r == baseUrl
  {
    if EndsWith(baseUrl, "/") then baseUrl[..|baseUrl| - 1] else baseUrl
  }

  /** The request timeout used when the configuration gives no truthy one. */
  const DefaultTimeout := 30000

  // ---------------------------------------------------------------------
  // Error normalisation

  /** `errorMessages?.join(', ')`, with `undefined` read as the empty string. */
  function ListedMessages(data: ErrorResponse): string {
    if data.errorMessages.Some? then Join(data.errorMessages.value, ", ") else ""
  }

  /** `key: value` for every entry of the `errors` map, in order. */
  function ErrorPairs(entries: seq<(string, string)>): (r: seq<string>)
    ensures |r| == |entries|
    ensures forall i :: 0 <= i < |entries| ==> r[i] == entries[i].0 + ": " + entries[i].1
  {
    seq(|entries|, i requires 0 <= i < |entries| => entries[i].0 + ": " + entries[i].1)
  }

  /** `Object.entries(errors || {}).map(...).join(', ')`. */
  function KeyedMessages(data: ErrorResponse): string {
    Join(ErrorPairs(if data.errors.Some? then data.errors.value else []), ", ")
  }

  /** The message of the `Error` the response interceptor throws for a failed
      request, by the fixed five-way precedence. */
  function HandleError(e: HttpError): (msg: string)
    ensures msg != ""
    ensures e.response.Some? && ListedMessages(e.response.value.data) != "" ==>
                msg == ListedMessages(e.response.value.data)
    ensures e.response.Some? && ListedMessages(e.response.value.data) == ""
              && KeyedMessages(e.response.value.data) != "" ==>
                msg == KeyedMessages(e.response.value.data)
    ensures e.response.Some? && ListedMessages(e.response.value.data) == ""
              && KeyedMessages(e.response.value.data) == "" ==>
                msg == "JIRA API Error: " + IntToString(e.response.value.status)
    ensures e.response.None? && e.request ==> msg == "No response from JIRA server"
    ensures e.response.None? && !e.request ==> msg == "Request error: " + e.message
  {
    match e.response
    case Some(resp) =>
      var listed := ListedMessages(resp.data);
      var keyed := KeyedMessages(resp.data);
      if listed != "" then listed
      else if keyed != "" then keyed
      else "JIRA API Error: " + IntToString(resp.status)
    case None =>
      if e.request then "No response from JIRA server"
      else "Request error: " + e.message
  }

  /** An awaited call through the interceptor: the payload, or an `Error`
      carrying the normalised message. */
  function Call<T>(reply: Reply<T>): (r: Outcome<T>)
    ensures reply.Ok? ==> r == Returned(reply.payload)
    ensures reply.Err? ==> r == Raised(ErrorObject(HandleError(reply.error)))
  {
    match reply
    case Ok(p) => Returned(p)
    case Err(e) => Raised(ErrorObject(HandleError(e)))
  }

  /** Adds `name` to the query when its value is defined. */
  function With(q: Query, name: string, v: Option<QueryValue>): Query {
    if v.Some? then q[name := v.value] else q
  }

  /** The four parameters every issue search sends, over the optional ones. */
  function SearchQuery(extras: Query, jql: string, startAt: int, maxResults: int, fields: string): (r: Query)
    requires extras.Keys <= {"expand", "properties", "validateQuery"}
    ensures r.Keys == extras.Keys + {"jql", "startAt", "maxResults", "fields"}
    ensures r["jql"] == QString(jql) && r["startAt"] == QNumber(startAt)
    ensures r["maxResults"] == QNumber(maxResults) && r["fields"] == QString(fields)
    ensures forall k :: k in extras ==> r[k] == extras[k]
  {
    extras["jql" := QString(jql)]["startAt" := QNumber(startAt)]["maxResults" := QNumber(maxResults)]["fields" := QString(fields)]
  }

  /** A string list sent as one comma-joined parameter. */
  function Joined(list: Option<seq<string>>): Option<QueryValue> {
    if list.Some? then Some(QString(Join(list.value, ","))) else None
  }

  function Str(v: Option<string>): Option<QueryValue> {
    if v.Some? then Some(QString(v.value)) else None
  }

  function Num(v: Option<int>): Option<QueryValue> {
    if v.Some? then Some(QNumber(v.value)) else None
  }

  function Bool(v: Option<bool>): Option<QueryValue> {
    if v.Some? then Some(QBool(v.value)) else None
  }

  // ---------------------------------------------------------------------
  // Per-call option bags

  datatype SearchOptions = SearchOptions(
    startAt: Option<int>,
    maxResults: Option<int>,
    fields: Option<seq<string>>,
    expand: Option<seq<string>>,
    properties: Option<seq<string>>,
    validateQuery: Option<bool>)

  datatype IssueOptions = IssueOptions(
    fields: Option<seq<string>>,
    expand: Option<seq<string>>,
    properties: Option<seq<string>>,
    updateHistory: Option<bool>)

  datatype CommentOptions = CommentOptions(
    startAt: Option<int>,
    maxResults: Option<int>,
    orderBy: Option<string>,
    expand: Option<string>)

  datatype TransitionOptions = TransitionOptions(
    transitionId: Option<string>,
    skipRemoteOnlyCondition: Option<bool>,
    includeUnavailableTransitions: Option<bool>,
    expand: Option<string>)

  datatype AllProjectsOptions = AllProjectsOptions(expand: Option<seq<string>>, recent: Option<int>)

  datatype ProjectSearchOptions = ProjectSearchOptions(
    startAt: Option<int>,
    maxResults: Option<int>,
    orderBy: Option<string>,
    query: Option<string>,
    typeKey: Option<string>,
    categoryId: Option<int>,
    action: Option<string>,
    expand: Option<string>,
    status: Option<seq<string>>)

  datatype UserSearchOptions = UserSearchOptions(
    query: Option<string>,
    username: Option<string>,
    accountId: Option<string>,
    startAt: Option<int>,
    maxResults: Option<int>,
    property: Option<string>)

  datatype PageOptions = PageOptions(startAt: Option<int>, maxResults: Option<int>)

  /** The client. Its configuration and the values derived from it in the
      constructor are fixed for its lifetime. */
  class JiraClient {
    const config: JiraConfig
    /** The base URL every request path is appended to. */
    const baseURL: string
    /** The request timeout in milliseconds. */
    const timeout: int

    constructor(config: JiraConfig)
      ensures this.config == config
      ensures baseURL == NormalizeBaseUrl(config.baseUrl)
      ensures timeout == OrNumber(config.timeout, DefaultTimeout)
    {
      this.config := config;
      baseURL := NormalizeBaseUrl(config.baseUrl);
      timeout := OrNumber(config.timeout, DefaultTimeout);
    }

    // Issues

    function SearchIssuesRequest(jql: string, options: SearchOptions): (r: Get)
      ensures r.url == baseURL + "/rest/api/2/search"
      ensures r.query.Keys == SearchExtras(options).Keys + {"jql", "startAt", "maxResults", "fields"}
      ensures r.query["jql"] == QString(jql)
      ensures r.query["startAt"] == QNumber(StartAt(options.startAt))
      ensures r.query["maxResults"] == QNumber(PageSize(options.maxResults, config.maxResults))
      ensures r.query["fields"] == QString(FieldList(options.fields, SearchDefaultFields))
    {
      Get(baseURL + "/rest/api/2/search",
          SearchQuery(SearchExtras(options), jql, StartAt(options.startAt),
                      PageSize(options.maxResults, config.maxResults),
                      FieldList(options.fields, SearchDefaultFields)))
    }

    /** The optional parameters of an issue search, each present exactly
        when its option is given. */
    function SearchExtras(options: SearchOptions): (q: Query)
      ensures q.Keys <= {"expand", "properties", "validateQuery"}
      ensures "expand" in q <==> options.expand.Some?
      ensures "properties" in q <==> options.properties.Some?
      ensures "validateQuery" in q <==> options.validateQuery.Some?
    {
      var q := With(map[], "expand", Joined(options.expand));
      var q := With(q, "properties", Joined(options.properties));
      With(q, "validateQuery", Bool(options.validateQuery))
    }

    function SearchIssues(remote: Remote, jql: string, options: SearchOptions): Outcome<SearchResults> {
      Call(remote.search(SearchIssuesRequest(jql, options)))
    }

    function GetIssueRequest(issueIdOrKey: string, options: IssueOptions): (r: Get)
      ensures r.url == baseURL + "/rest/api/2/issue/" + issueIdOrKey
      ensures "fields" in r.query
      ensures r.query["fields"] == QString(FieldList(options.fields, IssueDefaultFields))
      ensures "expand" in r.query <==> options.expand.Some?
      ensures "properties" in r.query <==> options.properties.Some?
      ensures "updateHistory" in r.query <==> options.updateHistory.Some?
    {
      var q := map["fields" := QString(FieldList(options.fields, IssueDefaultFields))];
      var q := With(q, "expand", Joined(options.expand));
      var q := With(q, "properties", Joined(options.properties));
      var q := With(q, "updateHistory", Bool(options.updateHistory));
      Get(baseURL + "/rest/api/2/issue/" + issueIdOrKey, q)
    }

    function GetIssue(remote: Remote, issueIdOrKey: string, options: IssueOptions): Outcome<Issue> {
      Call(remote.issue(GetIssueRequest(issueIdOrKey, options)))
    }

    function GetIssueCommentsRequest(issueIdOrKey: string, options: CommentOptions): (r: Get)
      ensures r.url == baseURL + "/rest/api/2/issue/" + issueIdOrKey + "/comment"
      ensures r.query.Keys >= {"startAt", "maxResults"}
      ensures r.query["startAt"] == QNumber(StartAt(options.startAt))
      ensures r.query["maxResults"] == QNumber(PageSize(options.maxResults, config.maxResults))
      ensures "orderBy" in r.query <==> options.orderBy.Some?
      ensures "expand" in r.query <==> options.expand.Some?
    {
      var q := map[
        "startAt" := QNumber(StartAt(options.startAt)),
        "maxResults" := QNumber(PageSize(options.maxResults, config.maxResults))];
      var q := With(q, "orderBy", Str(options.orderBy));
      var q := With(q, "expand", Str(options.expand));
      Get(baseURL + "/rest/api/2/issue/" + issueIdOrKey + "/comment", q)
    }

    function GetIssueComments(remote: Remote, issueIdOrKey: string, options: CommentOptions): Outcome<CommentPage> {
      Call(remote.comments(GetIssueCommentsRequest(issueIdOrKey, options)))
    }

    function GetIssueTransitionsRequest(issueIdOrKey: string, options: TransitionOptions): (r: Get)
      ensures r.url == baseURL + "/rest/api/2/issue/" + issueIdOrKey + "/transitions"
      ensures "includeUnavailableTransitions" in r.query <==> options.includeUnavailableTransitions.Some?
      ensures options.includeUnavailableTransitions.Some? ==>
                r.query["includeUnavailableTransitions"] == QBool(options.includeUnavailableTransitions.value)
    {
      var q := With(map[], "transitionId", Str(options.transitionId));
      var q := With(q, "skipRemoteOnlyCondition", Bool(options.skipRemoteOnlyCondition));
      var q := With(q, "includeUnavailableTransitions", Bool(options.includeUnavailableTransitions));
      var q := With(q, "expand", Str(options.expand));
      Get(baseURL + "/rest/api/2/issue/" + issueIdOrKey + "/transitions", q)
    }

    function GetIssueTransitions(remote: Remote, issueIdOrKey: string, options: TransitionOptions): Outcome<seq<Transition>> {
      Call(remote.transitions(GetIssueTransitionsRequest(issueIdOrKey, options)))
    }

    // Projects

    function GetAllProjectsRequest(options: AllProjectsOptions): (r: Get)
      ensures r.url == baseURL + "/rest/api/2/project"
      ensures "expand" in r.query <==> options.expand.Some?
      ensures "recent" in r.query <==> options.recent.Some?
    {
      var q := With(map[], "expand", Joined(options.expand));
      var q := With(q, "recent", Num(options.recent));
      Get(baseURL + "/rest/api/2/project", q)
    }

    function GetAllProjects(remote: Remote, options: AllProjectsOptions): Outcome<seq<Project>> {
      Call(remote.projects(GetAllProjectsRequest(options)))
    }

    function GetProjectRequest(projectIdOrKey: string, options: Option<seq<string>>): (r: Get)
      ensures r.url == baseURL + "/rest/api/2/project/" + projectIdOrKey
      ensures "expand" in r.query <==> options.Some?
    {
      Get(baseURL + "/rest/api/2/project/" + projectIdOrKey, With(map[], "expand", Joined(options)))
    }

    function GetProject(remote: Remote, projectIdOrKey: string, expand: Option<seq<string>>): Outcome<ProjectDetails> {
      Call(remote.project(GetProjectRequest(projectIdOrKey, expand)))
    }

    function SearchProjectsRequest(options: ProjectSearchOptions): (r: Get)
      ensures r.url == baseURL + "/rest/api/2/project/search"
      ensures r.query.Keys >= {"startAt", "maxResults", "orderBy", "action"}
      ensures r.query["startAt"] == QNumber(StartAt(options.startAt))
      ensures r.query["maxResults"] == QNumber(PageSize(options.maxResults, config.maxResults))
      ensures options.orderBy.None? || options.orderBy.value == "" ==> r.query["orderBy"] == QString("key")
      ensures options.orderBy.Some? && options.orderBy.value != "" ==> r.query["orderBy"] == QString(options.orderBy.value)
      ensures options.action.None? || options.action.value == "" ==> r.query["action"] == QString("browse")
      ensures options.action.Some? && options.action.value != "" ==> r.query["action"] == QString(options.action.value)
    {
      var q := ProjectSearchExtras(options)
        ["startAt" := QNumber(StartAt(options.startAt))]
        ["maxResults" := QNumber(PageSize(options.maxResults, config.maxResults))]
        ["orderBy" := QString(if options.orderBy.Some? && options.orderBy.value != "" then options.orderBy.value else "key")]
        ["action" := QString(if options.action.Some? && options.action.value != "" then options.action.value else "browse")];
      Get(baseURL + "/rest/api/2/project/search", q)
    }

    /** The optional parameters of a project search, each present exactly
        when its option is given. */
    function ProjectSearchExtras(options: ProjectSearchOptions): (q: Query)
      ensures q.Keys <= {"query", "typeKey", "categoryId", "expand", "status"}
      ensures "query" in q <==> options.query.Some?
      ensures "typeKey" in q <==> options.typeKey.Some?
      ensures "categoryId" in q <==> options.categoryId.Some?
      ensures "expand" in q <==> options.expand.Some?
      ensures "status" in q <==> options.status.Some?
    {
      var q := With(map[], "query", Str(options.query));
      var q := With(q, "typeKey", Str(options.typeKey));
      var q := With(q, "categoryId", Num(options.categoryId));
      var q := With(q, "expand", Str(options.expand));
      With(q, "status", Joined(options.status))
    }

    function SearchProjects(remote: Remote, options: ProjectSearchOptions): Outcome<ProjectPage> {
      Call(remote.projectSearch(SearchProjectsRequest(options)))
    }

    // Users

    function GetCurrentUserRequest(expand: Option<string>): (r: Get)
      ensures r.url == baseURL + "/rest/api/2/myself"
      ensures "expand" in r.query <==> expand.Some?
    {
      Get(baseURL + "/rest/api/2/myself", With(map[], "expand", Str(expand)))
    }

    function GetCurrentUser(remote: Remote, expand: Option<string>): Outcome<User> {
      Call(remote.user(GetCurrentUserRequest(expand)))
    }

    function SearchUsersRequest(options: UserSearchOptions): (r: Get)
      ensures r.url == baseURL + "/rest/api/2/user/search"
      ensures r.query.Keys >= {"startAt", "maxResults"}
      ensures r.query["startAt"] == QNumber(StartAt(options.startAt))
      ensures r.query["maxResults"] == QNumber(PageSize(options.maxResults, config.maxResults))
      ensures "query" in r.query <==> options.query.Some?
      ensures "accountId" in r.query <==> options.accountId.Some?
    {
      var q := map[
        "startAt" := QNumber(StartAt(options.startAt)),
        "maxResults" := QNumber(PageSize(options.maxResults, config.maxResults))];
      var q := With(q, "query", Str(options.query));
      var q := With(q, "username", Str(options.username));
      var q := With(q, "accountId", Str(options.accountId));
      var q := With(q, "property", Str(options.property));
      Get(baseURL + "/rest/api/2/user/search", q)
    }

    function SearchUsers(remote: Remote, options: UserSearchOptions): Outcome<seq<User>> {
      Call(remote.users(SearchUsersRequest(options)))
    }

    function GetUserRequest(accountId: string, expand: Option<string>): (r: Get)
      ensures r.url == baseURL + "/rest/api/2/user"
      ensures "accountId" in r.query && r.query["accountId"] == QString(accountId)
      ensures "expand" in r.query <==> expand.Some?
    {
      Get(baseURL + "/rest/api/2/user", With(map["accountId" := QString(accountId)], "expand", Str(expand)))
    }

    function GetUser(remote: Remote, accountId: string, expand: Option<string>): Outcome<User> {
      Call(remote.user(GetUserRequest(accountId, expand)))
    }

    // Fields

    function GetIssueTypesForProjectRequest(projectIdOrKey: string, options: PageOptions): (r: Get)
      ensures r.url == baseURL + "/rest/api/2/issue/createmeta/" + projectIdOrKey + "/issuetypes"
      ensures r.query.Keys == {"startAt", "maxResults"}
      ensures r.query["startAt"] == QNumber(StartAt(options.startAt))
      ensures r.query["maxResults"] == QNumber(PageSize(options.maxResults, config.maxResults))
    {
      Get(baseURL + "/rest/api/2/issue/createmeta/" + projectIdOrKey + "/issuetypes",
          PageQuery(options))
    }

    function GetIssueTypesForProject(remote: Remote, projectIdOrKey: string, options: PageOptions): Outcome<IssueTypesPage> {
      Call(remote.issueTypes(GetIssueTypesForProjectRequest(projectIdOrKey, options)))
    }

    function GetIssueTypeFieldsRequest(projectIdOrKey: string, issueTypeId: string, options: PageOptions): (r: Get)
      ensures r.url == baseURL + "/rest/api/2/issue/createmeta/" + projectIdOrKey + "/issuetypes/" + issueTypeId
      ensures r.query.Keys == {"startAt", "maxResults"}
      ensures r.query["startAt"] == QNumber(StartAt(options.startAt))
      ensures r.query["maxResults"] == QNumber(PageSize(options.maxResults, config.maxResults))
    {
      Get(baseURL + "/rest/api/2/issue/createmeta/" + projectIdOrKey + "/issuetypes/" + issueTypeId,
          PageQuery(options))
    }

    function GetIssueTypeFields(remote: Remote, projectIdOrKey: string, issueTypeId: string, options: PageOptions): Outcome<IssueTypeMeta> {
      Call(remote.issueType(GetIssueTypeFieldsRequest(projectIdOrKey, issueTypeId, options)))
    }

    function PageQuery(options: PageOptions): Query {
      map["startAt" := QNumber(StartAt(options.startAt)),
          "maxResults" := QNumber(PageSize(options.maxResults, config.maxResults))]
    }

    function GetIssueEditMetaRequest(issueIdOrKey: string): (r: Get)
      ensures r.url == baseURL + "/rest/api/2/issue/" + issueIdOrKey + "/editmeta"
      ensures r.query == map[]
    {
      Get(baseURL + "/rest/api/2/issue/" + issueIdOrKey + "/editmeta", map[])
    }

    function GetIssueEditMeta(remote: Remote, issueIdOrKey: string): Outcome<EditMeta> {
      Call(remote.editMeta(GetIssueEditMetaRequest(issueIdOrKey)))
    }
  }

  // ---------------------------------------------------------------------
  // Properties

  /** `errorMessages` wins over an `errors` map in the same body. */
  lemma ListedMessagesWin(status: int, messages: seq<string>, errors: Option<seq<(string, string)>>, request: bool, text: string)
    requires Join(messages, ", ") != ""
    ensures HandleError(HttpError(Some(HttpResponse(status, ErrorResponse(Some(messages), errors, None))), request, text))
            == Join(messages, ", ")
  {
  }

  /** An empty `errorMessages` list is the same as none: the `errors` map decides. */
  lemma EmptyMessageListFallsThrough(resp: HttpResponse, request: bool, text: string)
    requires resp.data.errorMessages == Some([])
    ensures HandleError(HttpError(Some(resp), request, text))
            == HandleError(HttpError(Some(HttpResponse(resp.status, resp.data.(errorMessages := None))), request, text))
  {
  }

  /** A 404 whose body carries no messages becomes `JIRA API Error: 404`. */
  lemma NotFoundMessage(request: bool, text: string)
    ensures HandleError(HttpError(Some(HttpResponse(404, ErrorResponse(None, None, None))), request, text))
            == "JIRA API Error: 404"
  {
  }

  /** The message text depends only on the response when there is one: a
      response always wins over the request flag and the transport message. */
  lemma ResponseDecides(resp: HttpResponse, request1: bool, request2: bool, text1: string, text2: string)
    ensures HandleError(HttpError(Some(resp), request1, text1)) == HandleError(HttpError(Some(resp), request2, text2))
  {
  }

  /** A base URL loses at most one trailing slash: `"https://x//"` keeps one. */
  lemma NormalizeRemovesOneSlash(baseUrl: string)
    requires EndsWith(baseUrl, "//")
    ensures EndsWith(NormalizeBaseUrl(baseUrl), "/")
  {
    var r := NormalizeBaseUrl(baseUrl);
    assert r == baseUrl[..|baseUrl| - 1];
    assert r[|r| - 1..] == baseUrl[|baseUrl| - 2..|baseUrl| - 1];
  }

  /** An explicit page size or offset of 0 is falsy and is replaced. */
  lemma ExplicitZeroFallsBack(configured: Option<int>)
    ensures PageSize(Some(0), configured) == PageSize(None, configured)
    ensures StartAt(Some(0)) == StartAt(None) == 0
  {
  }

  /** An empty field list, and a list whose only element is empty, both join to
      the empty string and therefore request the default fields. */
  lemma EmptyFieldListUsesDefaults(defaults: seq<string>)
    ensures FieldList(Some([]), defaults) == Join(defaults, ",")
    ensures FieldList(Some([""]), defaults) == Join(defaults, ",")
  {
  }

  /** The default field lists themselves are never empty after joining. */
  lemma DefaultFieldListsNonEmpty()
    ensures Join(SearchDefaultFields, ",") != ""
    ensures Join(IssueDefaultFields, ",") != ""
    ensures |SearchDefaultFields| == 11 && |IssueDefaultFields| == 17
  {
  }
}
