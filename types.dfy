/** The shapes of the remote payloads, as the TypeScript interfaces declare
    them. Optional properties are `Option`s; properties typed `T | null` whose
    `null` the handlers pass on are `Nullable`s. Properties that no handler
    reads are omitted, except `self`, kept to show that no projection returns
    it. A JavaScript object used as a dictionary is its list of entries, in
    the order `Object.entries` yields them. */
module JiraTypes {
  import opened Results
  import opened Json

  /** The configuration the client is built from. */
  datatype JiraConfig = JiraConfig(
    baseUrl: string,
    apiToken: string,
    maxResults: Option<int>,
    timeout: Option<int>)

  datatype AvatarUrls = AvatarUrls(
    x16: Option<string>, x24: Option<string>, x32: Option<string>, x48: Option<string>)

  datatype StatusCategory = StatusCategory(id: int, key: string, colorName: string, name: string)

  datatype Status = Status(
    id: string,
    name: string,
    description: Option<string>,
    statusCategory: Option<StatusCategory>,
    self: string)

  datatype Priority = Priority(id: string, name: string, iconUrl: Option<string>, self: string)

  datatype User = User(
    accountId: string,
    displayName: string,
    emailAddress: Option<string>,
    active: bool,
    avatarUrls: Option<AvatarUrls>,
    self: string,
    timeZone: Option<string>,
    accountType: Option<string>)

  datatype Project = Project(
    id: string,
    key: string,
    name: string,
    projectTypeKey: Option<string>,
    avatarUrls: Option<AvatarUrls>,
    self: string,
    simplified: Option<bool>,
    style: Option<string>)

  datatype IssueType = IssueType(
    id: string,
    name: string,
    description: Option<string>,
    iconUrl: Option<string>,
    self: string,
    subtask: Option<bool>,
    hierarchyLevel: Option<int>)

  datatype Component = Component(id: string, name: string, description: Option<string>, self: string)

  datatype Version = Version(
    id: string,
    name: string,
    description: Option<string>,
    archived: Option<bool>,
    released: Option<bool>,
    releaseDate: Option<string>,
    self: string)

  /** An issue's `fields` object. `assignee` is `None` both when absent and
      when `null`, since every handler treats the two alike. The named
      properties are followed by all other properties of the object (custom
      fields among them), in object order. */
  datatype IssueFields = IssueFields(
    summary: string,
    description: Nullable<string>,
    status: Option<Status>,
    priority: Option<Priority>,
    assignee: Option<User>,
    reporter: Option<User>,
    created: Option<string>,
    updated: Option<string>,
    resolved: Nullable<string>,
    project: Option<Project>,
    issuetype: Option<IssueType>,
    labels: Option<seq<string>>,
    components: Option<seq<Component>>,
    fixVersions: Option<seq<Version>>,
    versions: Option<seq<Version>>,
    others: seq<(string, Json)>)

  datatype Issue = Issue(id: string, key: string, self: string, fields: IssueFields)

  datatype SearchResults = SearchResults(startAt: int, maxResults: int, total: int, issues: seq<Issue>)

  /** A comment; a `body` that is a string is a `JString`, an Atlassian
      document is any other JSON value. */
  datatype Comment = Comment(
    id: string,
    author: Option<User>,
    body: Option<Json>,
    created: string,
    updated: string,
    updateAuthor: Option<User>,
    self: string)

  datatype CommentPage = CommentPage(startAt: int, maxResults: int, total: int, comments: seq<Comment>)

  datatype Transition = Transition(
    id: string,
    name: string,
    to: Status,
    hasScreen: Option<bool>,
    isGlobal: Option<bool>,
    isInitial: Option<bool>,
    isAvailable: Option<bool>)

  datatype ProjectPage = ProjectPage(
    maxResults: int, startAt: int, total: int, isLast: bool, values: seq<Project>)

  datatype ProjectCategory = ProjectCategory(id: string, name: string, description: Option<string>, self: string)

  /** `JiraProjectDetails extends JiraProject`: the base project and the extra properties. */
  datatype ProjectDetails = ProjectDetails(
    base: Project,
    description: Option<string>,
    lead: Option<User>,
    components: Option<seq<Component>>,
    issueTypes: Option<seq<IssueType>>,
    versions: Option<seq<Version>>,
    projectCategory: Option<ProjectCategory>)

  /** `JiraFieldSchema` and `JiraEditMetaFieldSchema`; `type` is `schemaType` here. */
  datatype FieldSchema = FieldSchema(
    schemaType: string,
    items: Option<string>,
    system: Option<string>,
    custom: Option<string>,
    customId: Option<int>)

  /** `FieldMetaBean`: one field of an issue type's create metadata. */
  datatype FieldMeta = FieldMeta(
    required: bool,
    schema: FieldSchema,
    name: string,
    key: string,
    autoCompleteUrl: Option<string>,
    hasDefaultValue: Option<bool>,
    operations: Option<seq<string>>,
    allowedValues: Option<seq<Json>>)

  /** `CreateMetaIssueTypeBean`. */
  datatype IssueTypeMeta = IssueTypeMeta(
    self: string,
    id: string,
    name: string,
    description: Option<string>,
    iconUrl: Option<string>,
    subtask: bool,
    fields: Option<seq<(string, FieldMeta)>>)

  /** `CreateMetaIssueTypesResponse`. */
  datatype IssueTypesPage = IssueTypesPage(
    maxResults: int, startAt: int, total: int, isLast: bool, values: seq<IssueTypeMeta>)

  /** `JiraEditMetaField`. */
  datatype EditMetaField = EditMetaField(
    required: bool,
    schema: FieldSchema,
    name: string,
    fieldId: string,
    operations: seq<string>)

  /** `JiraIssueEditMeta`: field id to field definition. */
  datatype EditMeta = EditMeta(fields: seq<(string, EditMetaField)>)

  /** The body of a failed response, `JiraErrorResponse`. */
  datatype ErrorResponse = ErrorResponse(
    errorMessages: Option<seq<string>>,
    errors: Option<seq<(string, string)>>,
    statusCode: Option<int>)
}
