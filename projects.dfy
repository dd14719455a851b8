/** The three project tools: list, get and search. */
module ProjectTools {
  import opened Json
  import opened Results
  import opened JiraTypes
  import opened Client
  import opened Schema

  // ---------------------------------------------------------------------
  // Schemas and typed inputs

  const ListProjectsSchema: ObjectSchema := [
    FieldSpec("expand", StringArrayKind, Optional),
    FieldSpec("recent", NumberKind, Optional)]

  const GetProjectSchema: ObjectSchema := [
    FieldSpec("projectIdOrKey", StringKind, Required),
    FieldSpec("expand", StringArrayKind, Optional)]

  /** The orders a project search accepts. */
  const OrderByOptions: seq<string> := [
    "category", "-category", "+category", "key", "-key", "+key",
    "name", "-name", "+name", "owner", "-owner", "+owner"]

  /** The permissions a project search can filter by. */
  const ActionOptions: seq<string> := ["view", "browse", "edit"]

  const SearchProjectsSchema: ObjectSchema := [
    FieldSpec("query", StringKind, Optional),
    FieldSpec("maxResults", NumberKind, Default(NumArg(50))),
    FieldSpec("startAt", NumberKind, Default(NumArg(0))),
    FieldSpec("orderBy", EnumKind(OrderByOptions), Default(StrArg("key"))),
    FieldSpec("typeKey", StringKind, Optional),
    FieldSpec("categoryId", NumberKind, Optional),
    FieldSpec("action", EnumKind(ActionOptions), Default(StrArg("browse")))]

  lemma SchemasWellFormed()
    ensures WellFormed(ListProjectsSchema) && WellFormed(GetProjectSchema) && WellFormed(SearchProjectsSchema)
  {
  }

  datatype ListProjectsInput = ListProjectsInput(expand: Option<seq<string>>, recent: Option<int>)

  datatype GetProjectInput = GetProjectInput(projectIdOrKey: string, expand: Option<seq<string>>)

  datatype SearchProjectsInput = SearchProjectsInput(
    query: Option<string>,
    maxResults: int,
    startAt: int,
    orderBy: string,
    typeKey: Option<string>,
    categoryId: Option<int>,
    action: string)

  function ListProjectsInputOf(args: Args): ListProjectsInput
    requires Conforms(ListProjectsSchema, args)
  {
    ListProjectsInput(OptStrs(args, "expand"), OptNum(args, "recent"))
  }

  function GetProjectInputOf(args: Args): GetProjectInput
    requires Conforms(GetProjectSchema, args)
  {
    assert FieldConforms(GetProjectSchema[0], args);
    GetProjectInput(args["projectIdOrKey"].s, OptStrs(args, "expand"))
  }

  function SearchProjectsInputOf(args: Args): (r: SearchProjectsInput)
    requires Conforms(SearchProjectsSchema, args)
    ensures r.orderBy in OrderByOptions && r.action in ActionOptions
  {
    assert FieldConforms(SearchProjectsSchema[1], args);
    assert FieldConforms(SearchProjectsSchema[2], args);
    assert FieldConforms(SearchProjectsSchema[3], args);
    assert FieldConforms(SearchProjectsSchema[6], args);
    SearchProjectsInput(OptStr(args, "query"), args["maxResults"].n, args["startAt"].n,
                        args["orderBy"].s, OptStr(args, "typeKey"), OptNum(args, "categoryId"),
                        args["action"].s)
  }

  /** A project search always carries an order and an action from their
      enums, `key` and `browse` when the caller gives none, and pages of 50
      from offset 0 by default. */
  lemma SearchProjectsArguments(raw: map<string, Json>)
    ensures var v := Validate(SearchProjectsSchema, Some(raw));
      v.Accepted? ==>
        Conforms(SearchProjectsSchema, v.args) &&
        var input := SearchProjectsInputOf(v.args);
        input.orderBy in OrderByOptions && input.action in ActionOptions &&
        ("orderBy" !in raw ==> input.orderBy == "key") &&
        ("action" !in raw ==> input.action == "browse") &&
        ("maxResults" !in raw ==> input.maxResults == 50) &&
        ("startAt" !in raw ==> input.startAt == 0)
  {
    var v := Validate(SearchProjectsSchema, Some(raw));
    if v.Accepted? {
      SchemasWellFormed();
      AcceptedConforms(SearchProjectsSchema, raw);
      AcceptedValue(SearchProjectsSchema, raw, 1);
      AcceptedValue(SearchProjectsSchema, raw, 2);
      AcceptedValue(SearchProjectsSchema, raw, 3);
      AcceptedValue(SearchProjectsSchema, raw, 6);
    }
  }

  /** An order or action outside its enum is rejected. */
  lemma SearchProjectsEnumsEnforced(raw: map<string, Json>, name: string, value: string)
    requires name == "orderBy" || name == "action"
    requires name in raw && raw[name] == JString(value)
    requires name == "orderBy" ==> value !in OrderByOptions
    requires name == "action" ==> value !in ActionOptions
    ensures Validate(SearchProjectsSchema, Some(raw)).Rejected?
  {
    ValidateAcceptsIff(SearchProjectsSchema, raw);
    if name == "orderBy" {
      assert SearchProjectsSchema[3].name == name;
    } else {
      assert SearchProjectsSchema[6].name == name;
    }
  }

  // ---------------------------------------------------------------------
  // Projections

  /** `simplified === false`. */
  function IsPrivate(simplified: Option<bool>): (r: bool)
    ensures r <==> simplified == Some(false)
  {
    simplified.Some? && !simplified.value
  }

  datatype ProjectSummary = ProjectSummary(
    key: string,
    id: string,
    name: string,
    projectTypeKey: Option<string>,
    style: Option<string>,
    isPrivate: bool,
    avatarUrls: Option<AvatarUrls>)

  function SummarizeProject(p: Project): (r: ProjectSummary)
    ensures r.key == p.key && r.id == p.id && r.name == p.name
    ensures r.isPrivate <==> p.simplified == Some(false)
  {
    ProjectSummary(p.key, p.id, p.name, p.projectTypeKey, p.style, IsPrivate(p.simplified), p.avatarUrls)
  }

  function SummarizeProjects(ps: seq<Project>): (r: seq<ProjectSummary>)
    ensures |r| == |ps|
    ensures forall i :: 0 <= i < |ps| ==> r[i] == SummarizeProject(ps[i])
  {
    seq(|ps|, i requires 0 <= i < |ps| => SummarizeProject(ps[i]))
  }

  datatype ProjectList = ProjectList(total: int, projects: seq<ProjectSummary>)

  /** The list result: as many projects as the server returned, in order. */
  function ListOf(ps: seq<Project>): (r: ProjectList)
    ensures r.total == |r.projects| == |ps|
    ensures forall i :: 0 <= i < |ps| ==> r.projects[i] == SummarizeProject(ps[i])
  {
    ProjectList(|ps|, SummarizeProjects(ps))
  }

  function ListProjects(client: JiraClient, input: ListProjectsInput, remote: Remote): (r: ToolResult<ProjectList>)
    ensures var reply := remote.projects(client.GetAllProjectsRequest(AllProjectsOptions(input.expand, input.recent)));
      (r.Success? <==> reply.Ok?) &&
      (reply.Ok? ==> r.data == ListOf(reply.payload)) &&
      (reply.Err? ==> r.error == HandleError(reply.error))
  {
    Handle(client.GetAllProjects(remote, AllProjectsOptions(input.expand, input.recent)), ListOf)
  }

  datatype LeadRef = LeadRef(displayName: string, accountId: string)
  datatype CategoryRef = CategoryRef(id: string, name: string, description: Option<string>)
  datatype ComponentInfo = ComponentInfo(id: string, name: string, description: Option<string>)
  datatype IssueTypeInfo = IssueTypeInfo(
    id: string, name: string, description: Option<string>, subtask: Option<bool>, hierarchyLevel: Option<int>)
  datatype VersionInfo = VersionInfo(
    id: string, name: string, description: Option<string>,
    archived: Option<bool>, released: Option<bool>, releaseDate: Option<string>)

  datatype ProjectInfo = ProjectInfo(
    key: string,
    id: string,
    name: string,
    description: Option<string>,
    lead: Option<LeadRef>,
    projectTypeKey: Option<string>,
    style: Option<string>,
    isPrivate: bool,
    avatarUrls: Option<AvatarUrls>,
    category: Option<CategoryRef>,
    components: Option<seq<ComponentInfo>>,
    issueTypes: Option<seq<IssueTypeInfo>>,
    versions: Option<seq<VersionInfo>>)

  /** The details of one project; `lead` and `category` are left undefined
      when the payload has none. */
  function DetailProject(d: ProjectDetails): (r: ProjectInfo)
    ensures r.key == d.base.key && r.id == d.base.id && r.name == d.base.name
    ensures r.lead.None? <==> d.lead.None?
    ensures d.lead.Some? ==> r.lead.value == LeadRef(d.lead.value.displayName, d.lead.value.accountId)
    ensures r.category.None? <==> d.projectCategory.None?
    ensures d.projectCategory.Some? ==>
              r.category.value.id == d.projectCategory.value.id && r.category.value.name == d.projectCategory.value.name
    ensures r.isPrivate <==> d.base.simplified == Some(false)
    ensures r.components.Some? <==> d.components.Some?
    ensures d.components.Some? ==> |r.components.value| == |d.components.value|
  {
    ProjectInfo(
      d.base.key, d.base.id, d.base.name, d.description,
      d.lead.Map((u: User) => LeadRef(u.displayName, u.accountId)),
      d.base.projectTypeKey, d.base.style, IsPrivate(d.base.simplified), d.base.avatarUrls,
      d.projectCategory.Map((c: ProjectCategory) => CategoryRef(c.id, c.name, c.description)),
      d.components.Map((cs: seq<Component>) =>
        seq(|cs|, i requires 0 <= i < |cs| => ComponentInfo(cs[i].id, cs[i].name, cs[i].description))),
      d.issueTypes.Map((ts: seq<IssueType>) =>
        seq(|ts|, i requires 0 <= i < |ts| =>
          IssueTypeInfo(ts[i].id, ts[i].name, ts[i].description, ts[i].subtask, ts[i].hierarchyLevel))),
      d.versions.Map((vs: seq<Version>) =>
        seq(|vs|, i requires 0 <= i < |vs| =>
          VersionInfo(vs[i].id, vs[i].name, vs[i].description, vs[i].archived, vs[i].released, vs[i].releaseDate))))
  }

  function GetProject(client: JiraClient, input: GetProjectInput, remote: Remote): (r: ToolResult<ProjectInfo>)
    ensures var reply := remote.project(client.GetProjectRequest(input.projectIdOrKey, input.expand));
      (r.Success? <==> reply.Ok?) &&
      (reply.Ok? ==> r.data == DetailProject(reply.payload)) &&
      (reply.Err? ==> r.error == HandleError(reply.error))
  {
    Handle(client.GetProject(remote, input.projectIdOrKey, input.expand), DetailProject)
  }

  datatype ProjectSearchData = ProjectSearchData(
    total: int, startAt: int, maxResults: int, isLast: bool, projects: seq<ProjectSummary>)

  /** A search page: the counters and `isLast` as the server sent them. */
  function SearchPageOf(page: ProjectPage): (r: ProjectSearchData)
    ensures r.total == page.total && r.startAt == page.startAt
    ensures r.maxResults == page.maxResults && r.isLast == page.isLast
    ensures r.projects == SummarizeProjects(page.values)
  {
    ProjectSearchData(page.total, page.startAt, page.maxResults, page.isLast, SummarizeProjects(page.values))
  }

  function SearchOptionsOf(input: SearchProjectsInput): ProjectSearchOptions {
    ProjectSearchOptions(Some(input.startAt), Some(input.maxResults), Some(input.orderBy), input.query,
                         input.typeKey, input.categoryId, Some(input.action), None, None)
  }

  function SearchProjects(client: JiraClient, input: SearchProjectsInput, remote: Remote): (r: ToolResult<ProjectSearchData>)
    ensures var reply := remote.projectSearch(client.SearchProjectsRequest(SearchOptionsOf(input)));
      (r.Success? <==> reply.Ok?) &&
      (reply.Ok? ==> r.data == SearchPageOf(reply.payload)) &&
      (reply.Err? ==> r.error == HandleError(reply.error))
  {
    Handle(client.SearchProjects(remote, SearchOptionsOf(input)), SearchPageOf)
  }

  /** A validated order and action reach the request unchanged. */
  lemma SearchProjectsRequestCarriesEnums(client: JiraClient, input: SearchProjectsInput)
    requires input.orderBy in OrderByOptions && input.action in ActionOptions
    ensures var q := client.SearchProjectsRequest(SearchOptionsOf(input)).query;
      q["orderBy"] == QString(input.orderBy) && q["action"] == QString(input.action)
  {
  }
}
