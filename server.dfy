/** The MCP server: the tool registry, tool discovery, configuration loading,
    and the dispatch of one tool call (lookup, client check, argument
    validation, handler, response envelope). */
module Server {
  import opened Text
  import opened Json
  import opened Results
  import opened JiraTypes
  import opened Client
  import opened Schema
  import opened IssueTools
  import opened ProjectTools
  import opened UserTools
  import opened FieldTools

  // ---------------------------------------------------------------------
  // Tools

  /** Which handler a tool runs. */
  datatype HandlerKind =
    | SearchIssuesTool | GetIssueTool | IssueCommentsTool | IssueTransitionsTool
    | ListProjectsTool | GetProjectTool | SearchProjectsTool
    | CurrentUserTool | GetUserTool | SearchUsersTool
    | IssueTypesTool | IssueTypeFieldsTool | FieldNamesTool | SearchFieldsTool

  /** A registered tool; its argument schema is determined by its handler. */
  datatype Tool = Tool(handler: HandlerKind)

  function SchemaOf(kind: HandlerKind): ObjectSchema {
    match kind
    case SearchIssuesTool => SearchIssuesSchema
    case GetIssueTool => GetIssueSchema
    case IssueCommentsTool => GetIssueCommentsSchema
    case IssueTransitionsTool => GetIssueTransitionsSchema
    case ListProjectsTool => ListProjectsSchema
    case GetProjectTool => GetProjectSchema
    case SearchProjectsTool => SearchProjectsSchema
    case CurrentUserTool => GetCurrentUserSchema
    case GetUserTool => GetUserSchema
    case SearchUsersTool => SearchUsersSchema
    case IssueTypesTool => GetIssueTypesSchema
    case IssueTypeFieldsTool => GetIssueTypeFieldsSchema
    case FieldNamesTool => GetIssueFieldNamesSchema
    case SearchFieldsTool => SearchIssueFieldsSchema
  }

  lemma SchemaOfWellFormed(kind: HandlerKind)
    ensures WellFormed(SchemaOf(kind))
  {
    IssueTools.SchemasWellFormed();
    ProjectTools.SchemasWellFormed();
    UserTools.SchemasWellFormed();
    FieldTools.SchemasWellFormed();
  }

  /** A name-to-tool object as the list of its entries, in insertion order. */
  type ToolMap = seq<(string, Tool)>

  const IssueToolMap: ToolMap := [
    ("jira_search_issues", Tool(SearchIssuesTool)),
    ("jira_get_issue", Tool(GetIssueTool)),
    ("jira_get_issue_comments", Tool(IssueCommentsTool)),
    ("jira_get_issue_transitions", Tool(IssueTransitionsTool))]

  const ProjectToolMap: ToolMap := [
    ("jira_list_projects", Tool(ListProjectsTool)),
    ("jira_get_project", Tool(GetProjectTool)),
    ("jira_search_projects", Tool(SearchProjectsTool))]

  const UserToolMap: ToolMap := [
    ("jira_get_current_user", Tool(CurrentUserTool)),
    ("jira_get_user", Tool(GetUserTool)),
    ("jira_search_users", Tool(SearchUsersTool))]

  /** Defined alongside the others but never merged into the registry. */
  const FieldToolMap: ToolMap := [
    ("jira_get_issue_types", Tool(IssueTypesTool)),
    ("jira_get_issue_type_fields", Tool(IssueTypeFieldsTool)),
    ("jira_get_issue_field_names", Tool(FieldNamesTool)),
    ("jira_search_issue_fields", Tool(SearchFieldsTool))]

  function Lookup(m: ToolMap, name: string): Option<Tool>
    decreases |m|
  {
    if m == [] then None else if m[0].0 == name then Some(m[0].1) else Lookup(m[1..], name)
  }

  /** `obj[name] = tool`: an existing key keeps its position and takes the
      new value; a new key goes last. */
  function Put(m: ToolMap, name: string, tool: Tool): ToolMap
    decreases |m|
  {
    if m == [] then [(name, tool)]
    else if m[0].0 == name then [(name, tool)] + m[1..]
    else [m[0]] + Put(m[1..], name, tool)
  }

  /** `{...acc, ...m}`. */
  function Spread(acc: ToolMap, m: ToolMap): ToolMap
    decreases |m|
  {
    if m == [] then acc else Spread(Put(acc, m[0].0, m[0].1), m[1..])
  }

  /** The registry `initializeTools` builds. */
  function Registry(): ToolMap {
    Spread(Spread(Spread([], IssueToolMap), ProjectToolMap), UserToolMap)
  }

  lemma {:induction false} PutLookup(m: ToolMap, name: string, tool: Tool, key: string)
    ensures Lookup(Put(m, name, tool), key) == if key == name then Some(tool) else Lookup(m, key)
    decreases |m|
  {
    if m != [] && m[0].0 != name {
      PutLookup(m[1..], name, tool, key);
    }
  }

  /** Put keeps every existing key where it was. */
  lemma {:induction false} PutKeepsPositions(m: ToolMap, name: string, tool: Tool)
    ensures |m| <= |Put(m, name, tool)| <= |m| + 1
    ensures forall i :: 0 <= i < |m| ==> Put(m, name, tool)[i].0 == m[i].0
    decreases |m|
  {
    if m != [] && m[0].0 != name {
      PutKeepsPositions(m[1..], name, tool);
      var r := Put(m, name, tool);
      forall i | 0 <= i < |m| ensures r[i].0 == m[i].0 {
        if i > 0 { assert r[i] == Put(m[1..], name, tool)[i - 1]; }
      }
    }
  }

  /** After a spread, a name the spread map defines has the value that map
      gives it, and every other name keeps its old value. */
  lemma {:induction false} SpreadLookup(acc: ToolMap, m: ToolMap, key: string)
    requires DistinctKeys(m)
    ensures Lookup(Spread(acc, m), key) == if Lookup(m, key).Some? then Lookup(m, key) else Lookup(acc, key)
    decreases |m|
  {
    if m != [] {
      assert DistinctKeys(m[1..]) by {
        forall i, j | 0 <= i < j < |m[1..]| ensures m[1..][i].0 != m[1..][j].0 {
          assert m[1..][i] == m[i + 1] && m[1..][j] == m[j + 1];
        }
      }
      SpreadLookup(Put(acc, m[0].0, m[0].1), m[1..], key);
      PutLookup(acc, m[0].0, m[0].1, key);
      if key == m[0].0 {
        assert Lookup(m[1..], key).None? by {
          LookupNoneIfAbsent(m[1..], key);
          forall i | 0 <= i < |m[1..]| ensures m[1..][i].0 != key {
            assert m[1..][i] == m[i + 1];
          }
        }
      }
    }
  }

  lemma {:induction false} LookupNoneIfAbsent(m: ToolMap, key: string)
    ensures Lookup(m, key).None? <==> forall i :: 0 <= i < |m| ==> m[i].0 != key
    decreases |m|
  {
    if m != [] {
      LookupNoneIfAbsent(m[1..], key);
      if m[0].0 != key {
        forall i | 0 <= i < |m| ensures (forall j :: 0 <= j < |m[1..]| ==> m[1..][j].0 != key) ==> m[i].0 != key {
          if i > 0 { assert m[i] == m[1..][i - 1]; }
        }
      }
    }
  }

  /** A spread keeps every key of the accumulated object at its position. */
  lemma {:induction false} SpreadKeepsPositions(acc: ToolMap, m: ToolMap)
    ensures |acc| <= |Spread(acc, m)|
    ensures forall i :: 0 <= i < |acc| ==> Spread(acc, m)[i].0 == acc[i].0
    decreases |m|
  {
    if m != [] {
      PutKeepsPositions(acc, m[0].0, m[0].1);
      SpreadKeepsPositions(Put(acc, m[0].0, m[0].1), m[1..]);
    }
  }

  /** No tool object defines a name twice. */
  lemma ToolMapsDistinct()
    ensures DistinctKeys(IssueToolMap) && DistinctKeys(ProjectToolMap) && DistinctKeys(UserToolMap)
  {
    assert Names(IssueToolMap) == ["jira_search_issues", "jira_get_issue", "jira_get_issue_comments", "jira_get_issue_transitions"];
    assert Names(ProjectToolMap) == ["jira_list_projects", "jira_get_project", "jira_search_projects"];
    assert Names(UserToolMap) == ["jira_get_current_user", "jira_get_user", "jira_search_users"];
  }

  /** Registry lookup: the user tools override the project tools, which
      override the issue tools. */
  lemma RegistryLookup(name: string)
    ensures Lookup(Registry(), name) ==
              if Lookup(UserToolMap, name).Some? then Lookup(UserToolMap, name)
              else if Lookup(ProjectToolMap, name).Some? then Lookup(ProjectToolMap, name)
              else Lookup(IssueToolMap, name)
  {
    ToolMapsDistinct();
    SpreadLookup([], IssueToolMap, name);
    SpreadLookup(Spread([], IssueToolMap), ProjectToolMap, name);
    SpreadLookup(Spread(Spread([], IssueToolMap), ProjectToolMap), UserToolMap, name);
  }

  /** Putting a new name appends it. */
  lemma {:induction false} PutAbsent(m: ToolMap, name: string, tool: Tool)
    requires forall i :: 0 <= i < |m| ==> m[i].0 != name
    ensures Put(m, name, tool) == m + [(name, tool)]
    decreases |m|
  {
    if m != [] {
      PutAbsent(m[1..], name, tool);
      assert [m[0]] + (m[1..] + [(name, tool)]) == m + [(name, tool)];
    }
  }

  /** Spreading an object with distinct keys, none of which is already
      present, appends its entries in order. */
  lemma {:induction false} SpreadDisjoint(acc: ToolMap, m: ToolMap)
    requires DistinctKeys(m)
    requires forall i, j :: 0 <= i < |acc| && 0 <= j < |m| ==> acc[i].0 != m[j].0
    ensures Spread(acc, m) == acc + m
    decreases |m|
  {
    if m != [] {
      PutAbsent(acc, m[0].0, m[0].1);
      var acc' := acc + [m[0]];
      forall i, j | 0 <= i < |acc'| && 0 <= j < |m[1..]| ensures acc'[i].0 != m[1..][j].0 {
        assert m[1..][j] == m[j + 1];
        if i == |acc| { assert acc'[i] == m[0]; } else { assert acc'[i] == acc[i]; }
      }
      assert DistinctKeys(m[1..]) by {
        forall i, j | 0 <= i < j < |m[1..]| ensures m[1..][i].0 != m[1..][j].0 {
          assert m[1..][i] == m[i + 1] && m[1..][j] == m[j + 1];
        }
      }
      SpreadDisjoint(acc', m[1..]);
      assert acc' + m[1..] == acc + m;
    }
  }

  /** The names of an object's entries. */
  function Names(m: ToolMap): (r: seq<string>)
    ensures |r| == |m| && forall i :: 0 <= i < |m| ==> r[i] == m[i].0
  {
    seq(|m|, i requires 0 <= i < |m| => m[i].0)
  }

  /** The tools `initializeTools` registers, in order. */
  const Registered: ToolMap := IssueToolMap + ProjectToolMap + UserToolMap

  lemma SpreadIssueTools()
    ensures Spread([], IssueToolMap) == IssueToolMap
  {
    assert Names(IssueToolMap) == ["jira_search_issues", "jira_get_issue", "jira_get_issue_comments", "jira_get_issue_transitions"];
    SpreadDisjoint([], IssueToolMap);
  }

  lemma SpreadProjectTools()
    ensures Spread(IssueToolMap, ProjectToolMap) == IssueToolMap + ProjectToolMap
  {
    assert Names(IssueToolMap) == ["jira_search_issues", "jira_get_issue", "jira_get_issue_comments", "jira_get_issue_transitions"];
    assert Names(ProjectToolMap) == ["jira_list_projects", "jira_get_project", "jira_search_projects"];
    SpreadDisjoint(IssueToolMap, ProjectToolMap);
  }

  lemma SpreadUserTools()
    ensures Spread(IssueToolMap + ProjectToolMap, UserToolMap) == Registered
  {
    var acc := IssueToolMap + ProjectToolMap;
    assert Names(acc) == ["jira_search_issues", "jira_get_issue", "jira_get_issue_comments", "jira_get_issue_transitions",
                          "jira_list_projects", "jira_get_project", "jira_search_projects"];
    assert Names(UserToolMap) == ["jira_get_current_user", "jira_get_user", "jira_search_users"];
    SpreadDisjoint(acc, UserToolMap);
  }

  /** The registry holds the issue, project and user tools, in that order. */
  lemma RegistryContents()
    ensures Registry() == Registered
  {
    SpreadIssueTools();
    SpreadProjectTools();
    SpreadUserTools();
  }

  /** None of the field tools can be called. */
  lemma FieldToolsNotRegistered(name: string)
    requires Lookup(FieldToolMap, name).Some?
    ensures Lookup(Registry(), name).None?
  {
    RegistryLookup(name);
    NotRegistered(name);
  }

  /** One field tool's name is in none of the merged objects. */
  lemma NotRegistered(name: string)
    requires name in {"jira_get_issue_types", "jira_get_issue_type_fields", "jira_get_issue_field_names", "jira_search_issue_fields"}
    ensures Lookup(UserToolMap, name).None? && Lookup(ProjectToolMap, name).None? && Lookup(IssueToolMap, name).None?
  {
  }

  // ---------------------------------------------------------------------
  // Discovery

  /** One entry of the tool list: name, argument fields and the required ones. */
  datatype ToolDescriptor = ToolDescriptor(name: string, properties: ObjectSchema, required: seq<string>)

  function Describe(entry: (string, Tool)): ToolDescriptor {
    ToolDescriptor(entry.0, SchemaOf(entry.1.handler), RequiredFields(SchemaOf(entry.1.handler)))
  }

  /** One descriptor per registered tool, in registry order. */
  function Discover(tools: ToolMap): (r: seq<ToolDescriptor>)
    ensures |r| == |tools|
    ensures forall i :: 0 <= i < |tools| ==>
              r[i].name == tools[i].0 && r[i].properties == SchemaOf(tools[i].1.handler)
              && r[i].required == RequiredFields(SchemaOf(tools[i].1.handler))
  {
    seq(|tools|, i requires 0 <= i < |tools| => Describe(tools[i]))
  }

  /** A field is advertised as required exactly when a call without it is
      rejected with an issue naming it; any other field may be left out of
      accepted arguments. */
  lemma AdvertisedRequiredIsEnforced(tools: ToolMap, i: nat, field: string, raw: map<string, Json>)
    requires i < |tools|
    ensures var d := Discover(tools)[i];
      var schema := SchemaOf(tools[i].1.handler);
      (field in d.required && field !in raw ==>
         Validate(schema, Some(raw)).Rejected? &&
         ValidationIssue([Key(field)], "Required") in Validate(schema, Some(raw)).issues) &&
      (field !in d.required && Validate(schema, Some(raw)).Accepted? ==>
         Validate(schema, Some(raw - {field})).Accepted?)
  {
    var schema := SchemaOf(tools[i].1.handler);
    RequiredFieldsExact(schema, field);
    SchemaOfWellFormed(tools[i].1.handler);
    if field in RequiredFields(schema) && field !in raw {
      var k :| 0 <= k < |schema| && schema[k].name == field && schema[k].presence.Required?;
      MissingRequiredReported(schema, raw, k);
    }
    if field !in RequiredFields(schema) && Validate(schema, Some(raw)).Accepted? {
      OmittingUnrequiredKeepsAccepted(schema, raw, field);
    }
  }

  /** What the registered tools advertise as required. */
  lemma RegistryRequiredFields()
    ensures |Discover(Registered)| == 10
    ensures Discover(Registered)[8].required == ["accountId"]
    ensures Discover(Registered)[9].required == []
  {
    RequiredUserFields();
    RegisteredUserEntries();
    assert SchemaOf(GetUserTool) == GetUserSchema && SchemaOf(SearchUsersTool) == SearchUsersSchema;
  }

  /** The user tools are the last two registered entries. */
  lemma RegisteredUserEntries()
    ensures |Registered| == 10
    ensures Registered[8].1.handler == GetUserTool && Registered[9].1.handler == SearchUsersTool
  {
    assert Registered[8] == UserToolMap[1] && Registered[9] == UserToolMap[2];
  }

  // ---------------------------------------------------------------------
  // Handlers

  /** The result of one handler, tagged with its tool. */
  datatype Payload =
    | SearchIssuesResult(searchIssues: ToolResult<SearchIssuesData>)
    | GetIssueResult(getIssue: ToolResult<IssueDetails>)
    | CommentsResult(comments: ToolResult<CommentsData>)
    | TransitionsResult(transitions: ToolResult<TransitionsData>)
    | ListProjectsResult(listProjects: ToolResult<ProjectList>)
    | GetProjectResult(getProject: ToolResult<ProjectInfo>)
    | SearchProjectsResult(searchProjects: ToolResult<ProjectSearchData>)
    | CurrentUserResult(currentUser: ToolResult<UserInfo>)
    | GetUserResult(getUser: ToolResult<UserInfo>)
    | SearchUsersResult(searchUsers: ToolResult<UsersData>)
    | IssueTypesResult(issueTypes: ToolResult<IssueTypesData>)
    | TypeFieldsResult(typeFields: ToolResult<TypeFieldsData>)
    | FieldNamesResult(fieldNames: ToolResult<FieldNamesData>)
    | FieldSearchResult(fieldSearch: ToolResult<FieldSearchData>)

  /** What the handler of `kind` returns for validated arguments. */
  function Dispatch(kind: HandlerKind, client: JiraClient, args: Args, remote: Remote): Payload
    requires Conforms(SchemaOf(kind), args)
  {
    match kind
    case SearchIssuesTool => SearchIssuesResult(IssueTools.SearchIssues(client, SearchIssuesInputOf(args), remote))
    case GetIssueTool => GetIssueResult(IssueTools.GetIssue(client, GetIssueInputOf(args), remote))
    case IssueCommentsTool => CommentsResult(GetIssueComments(client, CommentsInputOf(args), remote))
    case IssueTransitionsTool => TransitionsResult(GetIssueTransitions(client, TransitionsInputOf(args), remote))
    case ListProjectsTool => ListProjectsResult(ListProjects(client, ListProjectsInputOf(args), remote))
    case GetProjectTool => GetProjectResult(ProjectTools.GetProject(client, GetProjectInputOf(args), remote))
    case SearchProjectsTool => SearchProjectsResult(ProjectTools.SearchProjects(client, SearchProjectsInputOf(args), remote))
    case CurrentUserTool => CurrentUserResult(UserTools.GetCurrentUser(client, CurrentUserInputOf(args), remote))
    case GetUserTool => GetUserResult(UserTools.GetUser(client, GetUserInputOf(args), remote))
    case SearchUsersTool => SearchUsersResult(UserTools.SearchUsers(client, SearchUsersInputOf(args), remote))
    case IssueTypesTool => IssueTypesResult(GetIssueTypes(client, IssueTypesInputOf(args), remote))
    case IssueTypeFieldsTool => TypeFieldsResult(FieldTools.GetIssueTypeFields(client, TypeFieldsInputOf(args), remote))
    case FieldNamesTool => FieldNamesPayload(client, args, remote)
    case SearchFieldsTool => FieldSearchPayload(client, args, remote)
  }

  /** The field-names handler, with its sort as the function it is proved
      to compute. */
  function FieldNamesPayload(client: JiraClient, args: Args, remote: Remote): Payload
    requires Conforms(GetIssueFieldNamesSchema, args)
  {
    var key := FieldNamesInputOf(args).issueIdOrKey;
    FieldNamesResult(Handle(client.GetIssueEditMeta(remote, key), (meta: EditMeta) => FieldNamesOf(key, meta)))
  }

  /** The field-search handler, likewise. */
  function FieldSearchPayload(client: JiraClient, args: Args, remote: Remote): Payload
    requires Conforms(SearchIssueFieldsSchema, args)
  {
    var input := FieldSearchInputOf(args);
    FieldSearchResult(Handle(client.GetIssueEditMeta(remote, input.issueIdOrKey),
                             (meta: EditMeta) => FieldSearchOf(input.issueIdOrKey, input.searchTerms, meta)))
  }

  method RunFieldNames(client: JiraClient, args: Args, remote: Remote) returns (r: Payload)
    requires Conforms(GetIssueFieldNamesSchema, args)
    ensures r == FieldNamesPayload(client, args, remote)
  {
    var res := GetIssueFieldNames(client, FieldNamesInputOf(args), remote);
    r := FieldNamesResult(res);
  }

  method RunFieldSearch(client: JiraClient, args: Args, remote: Remote) returns (r: Payload)
    requires Conforms(SearchIssueFieldsSchema, args)
    ensures r == FieldSearchPayload(client, args, remote)
  {
    var res := SearchIssueFields(client, FieldSearchInputOf(args), remote);
    r := FieldSearchResult(res);
  }

  /** Runs the handler of `kind`; the two field tools run their loops. */
  method RunHandler(kind: HandlerKind, client: JiraClient, args: Args, remote: Remote) returns (r: Payload)
    requires Conforms(SchemaOf(kind), args)
    ensures r == Dispatch(kind, client, args, remote)
  {
    match kind
    case FieldNamesTool =>
      r := RunFieldNames(client, args, remote);
    case SearchFieldsTool =>
      r := RunFieldSearch(client, args, remote);
    case _ =>
      r := Dispatch(kind, client, args, remote);
  }

  // ---------------------------------------------------------------------
  // Calling a tool

  /** How the call-tool request handler answers, before any handler runs. */
  datatype Decision =
    | UnknownTool
    | NoClient
      /** `inputSchema.parse` threw a validation error. */
    | BadArguments(issues: seq<ValidationIssue>)
      /** Something else threw inside the `try`. */
    | Crashed(message: string)
    | Invoke(kind: HandlerKind, args: Args)

  /** The checks of one call in order: the tool, the client, the arguments.
      Only validated arguments of the tool's own shape reach a handler. */
  function Decide(tools: ToolMap, hasClient: bool, name: string, raw: Option<map<string, Json>>): (d: Decision)
    ensures !d.Crashed?
    ensures d.Invoke? ==> Conforms(SchemaOf(d.kind), d.args)
  {
    match Lookup(tools, name)
    case None => UnknownTool
    case Some(tool) =>
      if !hasClient then NoClient
      else
        match Validate(SchemaOf(tool.handler), raw)
        case Rejected(issues) => BadArguments(issues)
        case Accepted(args) =>
          SchemaOfWellFormed(tool.handler);
          AcceptedConforms(SchemaOf(tool.handler), raw.value);
          Invoke(tool.handler, args)
  }

  /** The object a response text item serialises. */
  datatype Body =
    | HandlerBody(result: Payload)
      /** `{success: false, error: 'Invalid arguments', details}` */
    | InvalidArguments(details: seq<ValidationIssue>)
      /** `{success: false, error}` from the request handler's own catch. */
    | ErrorBody(error: string)

  /** A content item of type `text` holding the serialised body. */
  datatype TextItem = TextItem(body: Body)

  /** A call either responds with content or throws out of the request handler. */
  datatype CallOutcome = Responded(content: seq<TextItem>) | Aborted(message: string)

  function ToolNotFoundMessage(name: string): string {
    "Tool \"" + name + "\" not found"
  }

  const ClientMissingMessage: string := "JIRA client not initialized." + " Please configure with valid credentials."

  /** The answer to a decision: the two early checks throw, everything else
      is one text item. */
  function Respond(d: Decision, name: string, client: JiraClient?, remote: Remote): CallOutcome
    requires d.Invoke? ==> client != null && Conforms(SchemaOf(d.kind), d.args)
  {
    match d
    case UnknownTool => Aborted(ToolNotFoundMessage(name))
    case NoClient => Aborted(ClientMissingMessage)
    case BadArguments(issues) => Responded([TextItem(InvalidArguments(issues))])
    case Crashed(message) => Responded([TextItem(ErrorBody(message))])
    case Invoke(kind, args) => Responded([TextItem(HandlerBody(Dispatch(kind, client, args, remote)))])
  }

  /** One tool call. */
  function CallSpec(tools: ToolMap, client: JiraClient?, name: string, raw: Option<map<string, Json>>, remote: Remote): CallOutcome {
    Respond(DecideAsWritten(tools, client != null, name, raw), name, client, remote)
  }

  lemma {:induction false} LookupFound(m: ToolMap, name: string)
    requires Lookup(m, name).Some?
    ensures exists i :: 0 <= i < |m| && m[i].0 == name && m[i].1 == Lookup(m, name).value
    decreases |m|
  {
    if m[0].0 != name {
      LookupFound(m[1..], name);
      var i :| 0 <= i < |m[1..]| && m[1..][i].0 == name && m[1..][i].1 == Lookup(m[1..], name).value;
      assert m[i + 1] == m[1..][i];
    } else {
      assert m[0].1 == Lookup(m, name).value;
    }
  }

  /** The checks run in order, as written: a name that is neither a tool nor
      inherited is reported before a missing client, a missing client before
      any argument is looked at, and an inherited name with a client ends in
      the catch-all. */
  lemma CallChecksInOrder(tools: ToolMap, hasClient: bool, name: string, raw: Option<map<string, Json>>)
    ensures var d := DecideAsWritten(tools, hasClient, name, raw);
      var found := Lookup(tools, name);
      (d == UnknownTool <==> found.None? && name !in InheritedNames) &&
      (d == NoClient <==> (found.Some? || name in InheritedNames) && !hasClient) &&
      (d.Crashed? <==> found.None? && name in InheritedNames && hasClient) &&
      (d.Crashed? ==> d.message == InheritedParseError) &&
      (d.BadArguments? <==>
         found.Some? && hasClient && Validate(SchemaOf(found.value.handler), raw).Rejected?) &&
      (d.Invoke? ==> found.Some? && d.kind == found.value.handler)
  {
  }

  /** A call that leaves out a required field is answered with the
      invalid-arguments body, whose details name the field. */
  lemma CallRejectsMissingRequired(tools: ToolMap, name: string, raw: map<string, Json>, field: string)
    requires Lookup(tools, name).Some?
    requires field in RequiredFields(SchemaOf(Lookup(tools, name).value.handler)) && field !in raw
    ensures var d := DecideAsWritten(tools, true, name, Some(raw));
      d.BadArguments? && ValidationIssue([Key(field)], "Required") in d.issues
  {
    var schema := SchemaOf(Lookup(tools, name).value.handler);
    RequiredFieldsExact(schema, field);
    var k :| 0 <= k < |schema| && schema[k].name == field && schema[k].presence.Required?;
    MissingRequiredReported(schema, raw, k);
  }

  /** What a call answers: the two early checks throw their messages, an
      inherited name with a client is one error item, a rejected argument
      object is one invalid-arguments item, and accepted arguments give
      exactly one item holding the handler's result on them. */
  lemma CallOutcomes(tools: ToolMap, client: JiraClient?, name: string, raw: Option<map<string, Json>>, remote: Remote)
    ensures Lookup(tools, name).None? && name !in InheritedNames ==>
              CallSpec(tools, client, name, raw, remote) == Aborted(ToolNotFoundMessage(name))
    ensures (Lookup(tools, name).Some? || name in InheritedNames) && client == null ==>
              CallSpec(tools, client, name, raw, remote) == Aborted(ClientMissingMessage)
    ensures Lookup(tools, name).None? && name in InheritedNames && client != null ==>
              CallSpec(tools, client, name, raw, remote) == Responded([TextItem(ErrorBody(InheritedParseError))])
    ensures Lookup(tools, name).Some? && client != null ==>
              var kind := Lookup(tools, name).value.handler;
              var v := Validate(SchemaOf(kind), raw);
              (v.Rejected? ==> CallSpec(tools, client, name, raw, remote) == Responded([TextItem(InvalidArguments(v.issues))])) &&
              (v.Accepted? ==>
                 Conforms(SchemaOf(kind), v.args) &&
                 CallSpec(tools, client, name, raw, remote) ==
                 Responded([TextItem(HandlerBody(Dispatch(kind, client, v.args, remote)))]))
  {
    if Lookup(tools, name).Some? && client != null {
      var kind := Lookup(tools, name).value.handler;
      if raw.Some? {
        SchemaOfWellFormed(kind);
        AcceptedConforms(SchemaOf(kind), raw.value);
      }
    }
  }

  /** A call with no arguments object at all is rejected as a whole. */
  lemma CallWithoutArguments(tools: ToolMap, name: string)
    requires Lookup(tools, name).Some?
    ensures DecideAsWritten(tools, true, name, None) == BadArguments([ValidationIssue([], "Required")])
  {
  }

  /** No call through the registry runs one of the field handlers. */
  lemma RegistryNeverRunsFieldTools(name: string, raw: Option<map<string, Json>>)
    ensures var d := DecideAsWritten(Registered, true, name, raw);
      d.Invoke? ==> d.kind != FieldNamesTool && d.kind != SearchFieldsTool
  {
    if Lookup(Registered, name).Some? {
      LookupFound(Registered, name);
      var i :| 0 <= i < |Registered| && Registered[i].0 == name && Registered[i].1 == Lookup(Registered, name).value;
      RegisteredHandler(i);
    }
  }

  /** No registered entry is a field tool. */
  lemma RegisteredHandler(i: nat)
    requires i < |Registered|
    ensures Registered[i].1.handler != FieldNamesTool && Registered[i].1.handler != SearchFieldsTool
  {
    if i < 4 {
      assert Registered[i] == IssueToolMap[i];
    } else if i < 7 {
      assert Registered[i] == ProjectToolMap[i - 4];
    } else {
      assert Registered[i] == UserToolMap[i - 7];
    }
  }

  /** `jira_get_user` with only an account id runs the get-user handler on
      that id and no `expand`. */
  lemma CallGetUser(accountId: string)
    ensures var d := DecideAsWritten(Registered, true, "jira_get_user", Some(map["accountId" := JString(accountId)]));
      d.Invoke? && d.kind == GetUserTool && GetUserInputOf(d.args) == GetUserInput(accountId, None)
  {
    GetUserRegistered();
    GetUserArguments(accountId);
  }

  /** The registry's `jira_get_user` entry is the get-user handler. */
  lemma GetUserRegistered()
    ensures Lookup(Registered, "jira_get_user") == Some(Tool(GetUserTool))
  {
    RegistryLookup("jira_get_user");
    RegistryContents();
  }

  /** A lone account id is a valid get-user argument object. */
  lemma GetUserArguments(accountId: string)
    ensures var v := Validate(GetUserSchema, Some(map["accountId" := JString(accountId)]));
      v.Accepted? && Conforms(GetUserSchema, v.args) &&
      GetUserInputOf(v.args) == GetUserInput(accountId, None)
  {
    var raw := map["accountId" := JString(accountId)];
    UserTools.SchemasWellFormed();
    ValidateAcceptsIff(GetUserSchema, raw);
    CollectValues(GetUserSchema, raw);
    AcceptedConforms(GetUserSchema, raw);
  }

  // ---------------------------------------------------------------------
  // Own and inherited properties of the tools object

  /** The names a plain object literal inherits from `Object.prototype`. */
  const InheritedNames: set<string> := {
    "constructor", "hasOwnProperty", "isPrototypeOf", "propertyIsEnumerable",
    "toLocaleString", "toString", "valueOf", "__proto__",
    "__defineGetter__", "__defineSetter__", "__lookupGetter__", "__lookupSetter__"}

  /** `this.tools[name]` on the object literal: an own tool, an inherited
      member (truthy, but with no `inputSchema`), or `undefined`. */
  datatype Property = Own(tool: Tool) | Inherited | Missing

  function PropertyOf(tools: ToolMap, name: string): Property {
    match Lookup(tools, name)
    case Some(t) => Own(t)
    case None => if name in InheritedNames then Inherited else Missing
  }

  /** The message of the TypeError raised by `undefined.parse(args)`. */
  const InheritedParseError := "Cannot read properties of undefined (reading 'parse')"

  /** The checks as written: an inherited name passes the `!tool` check and
      fails inside the `try`, so the catch-all answers it. */
  function DecideAsWritten(tools: ToolMap, hasClient: bool, name: string, raw: Option<map<string, Json>>): (d: Decision)
    ensures d.Invoke? ==> hasClient && Conforms(SchemaOf(d.kind), d.args)
  {
    match PropertyOf(tools, name)
    case Missing => UnknownTool
    case Inherited => if !hasClient then NoClient else Crashed(InheritedParseError)
    case Own(_) => Decide(tools, hasClient, name, raw)
  }

  /** `toString` is not a tool, yet as written it is answered with a
      TypeError message instead of "not found". */
  lemma InheritedNameIsNotReportedMissing(raw: Option<map<string, Json>>)
    ensures DecideAsWritten(Registered, true, "toString", raw) == Crashed(InheritedParseError)
    ensures Decide(Registered, true, "toString", raw) == UnknownTool
  {
    assert Lookup(Registered, "toString").None? by {
      LookupNoneIfAbsent(Registered, "toString");
      assert forall i :: 0 <= i < |Registered| ==> Registered[i].0 != "toString";
    }
  }

  /** Apart from the inherited names, the checks as written and the
      corrected checks agree. */
  lemma DecideAsWrittenAgrees(tools: ToolMap, hasClient: bool, name: string, raw: Option<map<string, Json>>)
    requires name !in InheritedNames
    ensures DecideAsWritten(tools, hasClient, name, raw) == Decide(tools, hasClient, name, raw)
  {
  }

  // ---------------------------------------------------------------------
  // Configuration

  /** Environment variables by name. */
  type Env = map<string, string>

  /** `process.env[key]` used as a condition: set and non-empty. */
  predicate Truthy(env: Env, key: string) {
    key in env && env[key] != ""
  }

  /** The white space `parseInt` skips (ASCII only). */
  predicate IsSpace(c: char) {
    c == ' ' || c == '\t' || c == '\n' || c == '\r' || c == '\U{0B}' || c == '\U{0C}'
  }

  predicate IsDigit(c: char) {
    '0' <= c <= '9'
  }

  /** `s` without its leading white space. */
  function TrimStart(s: string): (r: string)
    ensures r == [] || !IsSpace(r[0])
    decreases |s|
  {
    if s != [] && IsSpace(s[0]) then TrimStart(s[1..]) else s
  }

  predicate AllDigits(s: string) {
    forall i :: 0 <= i < |s| ==> IsDigit(s[i])
  }

  /** The longest prefix of decimal digits. */
  function DigitPrefix(s: string): (r: string)
    ensures |r| <= |s| && r == s[..|r|]
    ensures AllDigits(r)
    ensures |r| < |s| ==> !IsDigit(s[|r|])
    decreases |s|
  {
    if s != [] && IsDigit(s[0]) then [s[0]] + DigitPrefix(s[1..]) else []
  }

  /** The value of a string of decimal digits. */
  function DigitsValue(ds: string): nat
    requires AllDigits(ds)
    decreases |ds|
  {
    if ds == [] then 0
    else
      assert IsDigit(ds[|ds| - 1]);
      DigitsValue(ds[..|ds| - 1]) * 10 + (ds[|ds| - 1] as int - '0' as int)
  }

  /** The run of digits at the start of `s`, as a number. */
  function LeadingNumber(s: string): Option<int> {
    var ds := DigitPrefix(s);
    if ds == [] then None else Some(DigitsValue(ds))
  }

  /** `parseInt(s, 10)`: leading white space, an optional sign, then the
      longest run of digits; `None` is NaN. */
  function ParseInt(s: string): Option<int> {
    SignedNumber(TrimStart(s))
  }

  /** An optional sign followed by digits. */
  function SignedNumber(t: string): Option<int> {
    if t == [] then None
    else if t[0] == '-' then Negated(LeadingNumber(t[1..]))
    else if t[0] == '+' then LeadingNumber(t[1..])
    else LeadingNumber(t)
  }

  /** NaN stays NaN under negation. */
  function Negated(v: Option<int>): Option<int> {
    if v.Some? then Some(-v.value) else None
  }

  /** Printing a natural number and reading its digits back gives it again. */
  lemma {:induction false} DigitsValueOfNat(n: nat)
    ensures DigitsValue(NatToString(n)) == n
    decreases n
  {
    if n >= 10 {
      var s := NatToString(n);
      DigitsValueOfNat(n / 10);
      assert s[..|s| - 1] == NatToString(n / 10);
    }
  }

  /** The digit prefix stops exactly where the digits end. */
  lemma {:induction false} DigitPrefixOfDigits(ds: string, rest: string)
    requires AllDigits(ds)
    requires rest == [] || !IsDigit(rest[0])
    ensures DigitPrefix(ds + rest) == ds
    decreases |ds|
  {
    if ds != [] {
      assert (ds + rest)[1..] == ds[1..] + rest;
      DigitPrefixOfDigits(ds[1..], rest);
    } else {
      assert ds + rest == rest;
    }
  }

  lemma LeadingDigits(ds: string, rest: string)
    requires ds != [] && AllDigits(ds)
    requires rest == [] || !IsDigit(rest[0])
    ensures LeadingNumber(ds + rest) == Some(DigitsValue(ds))
  {
    DigitPrefixOfDigits(ds, rest);
  }

  lemma TrimStartNoSpace(s: string)
    requires s != [] && !IsSpace(s[0])
    ensures TrimStart(s) == s
  {
  }

  lemma ParseNegative(body: string)
    ensures ParseInt("-" + body) == Negated(LeadingNumber(body))
  {
    var s := "-" + body;
    assert s[0] == '-' && s[1..] == body;
    TrimStartNoSpace(s);
  }

  lemma ParseUnsigned(body: string)
    requires body != [] && IsDigit(body[0])
    ensures ParseInt(body) == LeadingNumber(body)
  {
    TrimStartNoSpace(body);
  }

  lemma ParseIntOfNegative(ds: string, rest: string)
    requires ds != [] && AllDigits(ds)
    requires rest == [] || !IsDigit(rest[0])
    ensures ParseInt("-" + (ds + rest)) == Some(-(DigitsValue(ds) as int))
  {
    LeadingDigits(ds, rest);
    ParseNegative(ds + rest);
  }

  lemma ReadsNegative(n: nat, rest: string)
    requires n > 0
    requires rest == [] || !IsDigit(rest[0])
    ensures ParseInt("-" + NatToString(n) + rest) == Some(-(n as int))
  {
    var ds := NatToString(n);
    DigitsValueOfNat(n);
    NatDigits(n);
    ParseIntOfNegative(ds, rest);
    SignAssociates(ds, rest);
  }

  lemma NatDigits(n: nat)
    ensures AllDigits(NatToString(n))
  {
  }

  lemma SignAssociates(ds: string, rest: string)
    ensures "-" + ds + rest == "-" + (ds + rest)
  {
  }

  lemma ReadsNat(n: nat, rest: string)
    requires rest == [] || !IsDigit(rest[0])
    ensures ParseInt(NatToString(n) + rest) == Some(n)
  {
    var ds := NatToString(n);
    DigitsValueOfNat(n);
    NatDigits(n);
    LeadingDigits(ds, rest);
    assert (ds + rest)[0] == ds[0];
    ParseUnsigned(ds + rest);
  }

  /** `parseInt` reads back a printed integer, and stops at the first
      character that is not a digit (so `"12px"` reads as 12). */
  lemma ParseIntReadsPrinted(i: int, rest: string)
    requires rest == [] || !IsDigit(rest[0])
    ensures ParseInt(IntToString(i) + rest) == Some(i)
  {
    if i < 0 {
      ReadsNegative(-i, rest);
    } else {
      ReadsNat(i, rest);
    }
  }

  /** A numeric setting: the parsed variable when it is set and non-empty,
      the default otherwise; `None` is NaN. */
  function NumberSetting(env: Env, key: string, default: int): (r: Option<int>)
    ensures !Truthy(env, key) ==> r == Some(default)
    ensures Truthy(env, key) ==> r == ParseInt(env[key])
  {
    if Truthy(env, key) then ParseInt(env[key]) else Some(default)
  }

  const DefaultMaxResults := 50

  /** What reading the configuration from one environment yields. */
  datatype ConfigLookup = NoCredentials | Invalid | Loaded(config: JiraConfig)

  /** Credentials present: `ConfigSchema.parse` of the candidate, with the
      `url` and `email` checks as parameters. NaN fails `z.number()`. */
  function ConfigFrom(env: Env, urlOk: string -> bool, emailOk: string -> bool): (r: ConfigLookup)
    ensures r.NoCredentials? <==>
              !(Truthy(env, "JIRA_BASE_URL") && Truthy(env, "JIRA_EMAIL") && Truthy(env, "JIRA_API_TOKEN"))
    ensures r.Loaded? ==>
              urlOk(env["JIRA_BASE_URL"]) && emailOk(env["JIRA_EMAIL"]) &&
              r.config.baseUrl == env["JIRA_BASE_URL"] && r.config.apiToken == env["JIRA_API_TOKEN"] &&
              r.config.maxResults == NumberSetting(env, "JIRA_MAX_RESULTS", DefaultMaxResults) &&
              r.config.timeout == NumberSetting(env, "JIRA_TIMEOUT", DefaultTimeout)
    ensures r.Loaded? <==>
              Truthy(env, "JIRA_BASE_URL") && Truthy(env, "JIRA_EMAIL") && Truthy(env, "JIRA_API_TOKEN") &&
              urlOk(env["JIRA_BASE_URL"]) && emailOk(env["JIRA_EMAIL"]) &&
              NumberSetting(env, "JIRA_MAX_RESULTS", DefaultMaxResults).Some? &&
              NumberSetting(env, "JIRA_TIMEOUT", DefaultTimeout).Some?
  {
    if !(Truthy(env, "JIRA_BASE_URL") && Truthy(env, "JIRA_EMAIL") && Truthy(env, "JIRA_API_TOKEN")) then NoCredentials
    else
      var maxResults := NumberSetting(env, "JIRA_MAX_RESULTS", DefaultMaxResults);
      var timeout := NumberSetting(env, "JIRA_TIMEOUT", DefaultTimeout);
      if urlOk(env["JIRA_BASE_URL"]) && emailOk(env["JIRA_EMAIL"]) && maxResults.Some? && timeout.Some?
      then Loaded(JiraConfig(env["JIRA_BASE_URL"], env["JIRA_API_TOKEN"], maxResults, timeout))
      else Invalid
  }

  /** `loadConfig`: the process environment first; only without credentials
      there, the `.env` file (`None` when it cannot be loaded), whose entries
      never override variables already set. */
  function LoadConfig(env: Env, dotenv: Option<Env>, urlOk: string -> bool, emailOk: string -> bool): Option<JiraConfig> {
    match ConfigFrom(env, urlOk, emailOk)
    case Loaded(c) => Some(c)
    case Invalid => None
    case NoCredentials =>
      match dotenv
      case None => None
      case Some(file) =>
        match ConfigFrom(file + env, urlOk, emailOk)
        case Loaded(c) => Some(c)
        case _ => None
  }

  /** With credentials in the environment the `.env` file is never read,
      even when the environment's configuration is invalid. */
  lemma EnvironmentCredentialsWin(env: Env, dotenv: Option<Env>, urlOk: string -> bool, emailOk: string -> bool)
    requires Truthy(env, "JIRA_BASE_URL") && Truthy(env, "JIRA_EMAIL") && Truthy(env, "JIRA_API_TOKEN")
    ensures LoadConfig(env, dotenv, urlOk, emailOk) == LoadConfig(env, None, urlOk, emailOk)
  {
  }

  /** A loaded configuration has credentials that passed the checks, and
      its numbers are the variables' values or the defaults 50 and 30000. */
  lemma LoadedConfigShape(env: Env, dotenv: Option<Env>, urlOk: string -> bool, emailOk: string -> bool)
    ensures var c := LoadConfig(env, dotenv, urlOk, emailOk);
      var used := if dotenv.Some? && ConfigFrom(env, urlOk, emailOk).NoCredentials? then dotenv.value + env else env;
      c.Some? ==>
        Truthy(used, "JIRA_BASE_URL") && Truthy(used, "JIRA_EMAIL") && Truthy(used, "JIRA_API_TOKEN") &&
        urlOk(c.value.baseUrl) && emailOk(used["JIRA_EMAIL"]) &&
        c.value.maxResults.Some? && c.value.timeout.Some? &&
        (!Truthy(used, "JIRA_MAX_RESULTS") ==> c.value.maxResults == Some(50)) &&
        (!Truthy(used, "JIRA_TIMEOUT") ==> c.value.timeout == Some(30000))
  {
  }

  /** Credentials that pass the checks and numbers that parse give exactly
      that configuration, whatever the `.env` file holds. */
  lemma ValidEnvironmentLoads(env: Env, dotenv: Option<Env>, urlOk: string -> bool, emailOk: string -> bool)
    requires Truthy(env, "JIRA_BASE_URL") && Truthy(env, "JIRA_EMAIL") && Truthy(env, "JIRA_API_TOKEN")
    requires urlOk(env["JIRA_BASE_URL"]) && emailOk(env["JIRA_EMAIL"])
    requires NumberSetting(env, "JIRA_MAX_RESULTS", DefaultMaxResults).Some?
    requires NumberSetting(env, "JIRA_TIMEOUT", DefaultTimeout).Some?
    ensures LoadConfig(env, dotenv, urlOk, emailOk) ==
              Some(JiraConfig(env["JIRA_BASE_URL"], env["JIRA_API_TOKEN"],
                              NumberSetting(env, "JIRA_MAX_RESULTS", DefaultMaxResults),
                              NumberSetting(env, "JIRA_TIMEOUT", DefaultTimeout)))
  {
  }

  /** Without credentials in the environment, a `.env` file whose entries
      (under the variables already set) make a valid configuration gives that
      configuration; with no file there is none. */
  lemma DotenvLoads(env: Env, file: Env, urlOk: string -> bool, emailOk: string -> bool)
    requires !(Truthy(env, "JIRA_BASE_URL") && Truthy(env, "JIRA_EMAIL") && Truthy(env, "JIRA_API_TOKEN"))
    ensures LoadConfig(env, None, urlOk, emailOk).None?
    ensures var merged := file + env;
      LoadConfig(env, Some(file), urlOk, emailOk).Some? <==> ConfigFrom(merged, urlOk, emailOk).Loaded?
    ensures var merged := file + env;
      ConfigFrom(merged, urlOk, emailOk).Loaded? ==>
        LoadConfig(env, Some(file), urlOk, emailOk) == Some(ConfigFrom(merged, urlOk, emailOk).config) &&
        LoadConfig(env, Some(file), urlOk, emailOk).value.baseUrl == merged["JIRA_BASE_URL"]
  {
  }

  /** A numeric variable that is set but does not start with a number makes
      the whole configuration invalid rather than falling back to the default. */
  lemma UnparsableNumberRejects(env: Env, dotenv: Option<Env>, key: string, urlOk: string -> bool, emailOk: string -> bool)
    requires Truthy(env, "JIRA_BASE_URL") && Truthy(env, "JIRA_EMAIL") && Truthy(env, "JIRA_API_TOKEN")
    requires key == "JIRA_MAX_RESULTS" || key == "JIRA_TIMEOUT"
    requires Truthy(env, key) && ParseInt(env[key]).None?
    ensures LoadConfig(env, dotenv, urlOk, emailOk).None?
  {
  }

  /** A word such as `soon` is NaN to `parseInt`, as is a lone sign. */
  lemma WordsAreNotNumbers()
    ensures ParseInt("soon").None? && ParseInt(" -").None? && ParseInt("+x1").None?
  {
    assert DigitPrefix("soon") == [];
    assert TrimStart(" -") == "-";
    assert DigitPrefix("x1") == [];
  }

  // ---------------------------------------------------------------------
  // The server object

  class JiraMCPServer {
    var tools: ToolMap
    var client: JiraClient?

    /** A server starts with the registry and no client. */
    constructor()
      ensures tools == Registry() == Registered && client == null
    {
      tools := [];
      client := null;
      new;
      InitializeTools();
    }

    method InitializeTools()
      modifies this
      ensures tools == Registry() == Registered
      ensures client == old(client)
    {
      tools := Registry();
      RegistryContents();
    }

    /** `connect`: a client exactly when a configuration was loaded; the
        transport is not modelled. */
    method Connect(env: Env, dotenv: Option<Env>, urlOk: string -> bool, emailOk: string -> bool)
      modifies this
      ensures tools == old(tools)
      ensures var c := LoadConfig(env, dotenv, urlOk, emailOk);
        (c.Some? ==> client != null && fresh(client) && client.config == c.value) &&
        (c.None? ==> client == old(client))
    {
      var config := LoadConfig(env, dotenv, urlOk, emailOk);
      if config.Some? {
        client := new JiraClient(config.value);
      }
    }

    /** The list-tools request: one descriptor per registered tool. */
    method ListTools() returns (r: seq<ToolDescriptor>)
      ensures r == Discover(tools)
    {
      r := Discover(tools);
    }

    /** The call-tool request. */
    method CallTool(name: string, raw: Option<map<string, Json>>, remote: Remote) returns (r: CallOutcome)
      ensures r == CallSpec(tools, client, name, raw, remote)
    {
      var d := DecideAsWritten(tools, client != null, name, raw);
      match d
      case UnknownTool => r := Aborted(ToolNotFoundMessage(name));
      case NoClient => r := Aborted(ClientMissingMessage);
      case BadArguments(issues) => r := Responded([TextItem(InvalidArguments(issues))]);
      case Crashed(message) => r := Responded([TextItem(ErrorBody(message))]);
      case Invoke(kind, args) =>
        var p := RunHandler(kind, client, args, remote);
        r := Responded([TextItem(HandlerBody(p))]);
    }
  }
}
