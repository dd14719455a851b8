# JIRA MCP server, modelled in Dafny

This project models the core of a Model Context Protocol (MCP) server that
exposes a JIRA instance as a set of tools. The server keeps a registry of
named tools, each with an argument schema and a handler. It answers two
requests:

- **list tools** returns one descriptor per registered tool, with the
  fields the tool's schema marks as required;
- **call tool** looks the tool up, checks that a JIRA client exists,
  validates the arguments against the schema, runs the handler, and wraps
  the result in one text content item. Validation errors and other
  failures each get their own envelope. The server class follows the code
  as written, including its answer to property names every JavaScript
  object inherits (see "## Findings").

Each handler sends one request through the JIRA REST client. It projects
the payload into a compact record, or turns what the client threw into
`{success: false, error}`. The client builds each request from the
per-call options, the frozen configuration and literal defaults. It
collapses every failed request into one message, using a fixed precedence.

The modules follow the program:

- `Client` models `src/client/JiraClient.ts`.
- `IssueTools`, `ProjectTools`, `UserTools` and `FieldTools` model the four
  files under `src/tools/`.
- `Server` models `src/server.ts`: the registry, discovery, the dispatch of
  one call, configuration loading, and the `JiraMCPServer` class with its
  mutable `tools` and `client` fields.
- `JiraTypes` holds the payload shapes of `src/client/types.ts`.
- `Schema` replaces the argument schemas. Each `z.object` becomes a list
  of field specifications (name, kind, and required, optional or
  defaulted). Validation and the advertised `required` list are both
  derived from that one description.
- `Text`, `Json`, `Results` and `Sorting` define the string operations,
  JSON values, result shapes and stable sort that the code relies on.

The HTTP transport is an oracle. `Client.Remote` has one function per
endpoint, taking the request sent (URL and query parameters) to the
server's answer: a payload or an error record. Every handler's contract
ties its result to that answer on the request the client builds. The
environment, the `.env` file and the URL/e-mail checks of the
configuration schema are parameters.

## Model

| member | source | states |
|---|---|---|
| Text.Join | src/client/JiraClient.ts:85 | a single element joins to itself; with a non-empty separator the join is empty exactly for `[]` and `[""]` |
| Text.ContainsIffOccurs | src/tools/fields.ts:173 | `includes` holds exactly when the needle occurs at some position of the string |
| Text.EmptyIsContained | src/tools/fields.ts:173 | every string includes the empty string |
| Text.LowerChar | src/tools/fields.ts:170-171 | upper-case ASCII letters map to lower-case letters; every other character is unchanged |
| Text.ToLower | src/tools/fields.ts:170-171 | lower-casing keeps the length and lower-cases each character |
| Text.ToLowerIdempotent | src/tools/fields.ts:170-171 | lower-casing twice is the same as lower-casing once |
| Text.DigitChar | src/client/JiraClient.ts:54 | a digit value below 10 prints as a character from '0' to '9' |
| Text.NatToString | src/client/JiraClient.ts:54 | a status code prints as a non-empty string of decimal digits |
| Text.IntToString | src/client/JiraClient.ts:54 | an integer prints non-empty, with a leading '-' exactly when it is negative |
| Text.LessIrreflexive | src/tools/fields.ts:139 | no name sorts strictly before itself |
| Text.LessTransitive | src/tools/fields.ts:139 | the order used by the name sorts is transitive |
| Text.LessTotal | src/tools/fields.ts:139 | any two different names are ordered one way or the other |
| Text.LessAsymmetric | src/tools/fields.ts:139 | two names are never each before the other |
| Json.HexDigit | src/tools/issues.ts:175 | a digit value below 16 is written as a lower-case hexadecimal digit |
| Json.EscapeChar | src/tools/issues.ts:175 | `JSON.stringify`'s escaping of one character: plain characters stand for themselves; quote, backslash and every character below U+0020 become a backslash sequence (`\b`, `\t`, `\n`, `\f`, `\r` or `\u00xx`) free of control characters |
| Json.Escape | src/tools/issues.ts:175 | an escaped string holds no control character and is at least as long as the original |
| Json.EscapePlain | src/tools/issues.ts:175 | text without quotes, backslashes or control characters is written unchanged |
| Json.EscapeAppend | src/tools/issues.ts:175 | escaping distributes over concatenation |
| Json.Serialize | src/tools/issues.ts:175 | `JSON.stringify` of a comment body without indentation, with strings escaped by `Json.Escape` |
| Results.ToolResult.MapData | src/tools/issues.ts:47-80 | mapping the data keeps success or failure and the error message |
| Results.FailureOf | src/tools/issues.ts:75-80 | a thrown `Error` becomes a failure carrying its message; any other thrown value becomes `Unknown error occurred` |
| Results.Handle | src/tools/users.ts:25-47 | a handler succeeds exactly when its client call returned, with the projected payload as data; otherwise it fails as its catch block does |
| Client.OrNumber | src/client/JiraClient.ts:32 | `o \|\| fallback`: the option when it is given and non-zero, the fallback when it is absent or 0 |
| Client.StartAt | src/client/JiraClient.ts:83 | the offset sent is the requested one when there is one, else 0 |
| Client.PageSize | src/client/JiraClient.ts:84 | the page size is never 0: the requested size if truthy, else the configured one if truthy, else 50 |
| Client.FieldList | src/client/JiraClient.ts:85 | the caller's comma-joined field list when that join is non-empty; the joined defaults when the list is absent, `[]` or `[""]` |
| Client.NormalizeBaseUrl | src/client/JiraClient.ts:26-28 | a base URL ending in `/` loses exactly that one character; any other base URL is unchanged |
| Client.ListedMessages | src/client/JiraClient.ts:50 | the `errorMessages` list joined with `, ` (empty when absent); its precedence is stated by `Client.HandleError` and `Client.ListedMessagesWin` |
| Client.KeyedMessages | src/client/JiraClient.ts:51-53 | the `key: value` pairs of the `errors` map joined with `, `, as listed by `Client.ErrorPairs` |
| Client.ErrorPairs | src/client/JiraClient.ts:51-52 | one `key: value` string per entry of the `errors` map, in order |
| Client.HandleError | src/client/JiraClient.ts:47-62 | the five-way precedence: listed messages, then `key: value` pairs, then `JIRA API Error: <status>` when there is a response; `No response from JIRA server` for a request without a response; `Request error: <message>` otherwise. The message is never empty |
| Client.Call | src/client/JiraClient.ts:41-44 | a reply passes through the response interceptor: a payload is returned, and a failure is thrown as an `Error` carrying the normalised message |
| Client.SearchQuery | src/client/JiraClient.ts:81-89 | the search query has `jql`, `startAt`, `maxResults` and `fields` with the given values, keeps every optional parameter, and has no other key |
| Client.JiraClient.constructor | src/client/JiraClient.ts:23-45 | the client keeps its configuration, the normalised base URL and the timeout (the configured timeout if truthy, else 30000) |
| Client.JiraClient.SearchIssuesRequest | src/client/JiraClient.ts:66-92 | a search is sent to `/rest/api/2/search` with the jql, the defaulted offset, page size and field list (11-field default), plus exactly the optional parameters the caller gave |
| Client.JiraClient.SearchExtras | src/client/JiraClient.ts:86-88 | `expand`, `properties` and `validateQuery` are each sent exactly when the caller gives them |
| Client.JiraClient.GetIssueRequest | src/client/JiraClient.ts:95-118 | an issue fetch is sent to `/rest/api/2/issue/<key>` and always carries `fields` (17-field default); each optional parameter is sent exactly when given |
| Client.JiraClient.GetIssueCommentsRequest | src/client/JiraClient.ts:120-138 | comments are fetched from `.../comment` with the defaulted offset and page size; `orderBy` and `expand` are sent exactly when given |
| Client.JiraClient.GetIssueTransitionsRequest | src/client/JiraClient.ts:140-158 | transitions are fetched from `.../transitions`, with `includeUnavailableTransitions` sent exactly when given, with its value |
| Client.JiraClient.GetAllProjectsRequest | src/client/JiraClient.ts:162-173 | the project list is fetched from `/rest/api/2/project`, with `expand` and `recent` each sent exactly when given |
| Client.JiraClient.GetProjectRequest | src/client/JiraClient.ts:175-187 | one project is fetched from `/rest/api/2/project/<key>`, with `expand` sent exactly when given |
| Client.JiraClient.SearchProjectsRequest | src/client/JiraClient.ts:189-214 | a project search sends the defaulted offset and page size, `orderBy` (else `key`) and `action` (else `browse`) |
| Client.JiraClient.ProjectSearchExtras | src/client/JiraClient.ts:205-210 | `query`, `typeKey`, `categoryId`, `expand` and `status` are each sent exactly when given |
| Client.JiraClient.GetCurrentUserRequest | src/client/JiraClient.ts:218-227 | the current user is fetched from `/rest/api/2/myself`, with `expand` sent exactly when given |
| Client.JiraClient.SearchUsersRequest | src/client/JiraClient.ts:229-248 | a user search sends the defaulted offset and page size; `query` and `accountId` are sent exactly when given |
| Client.JiraClient.GetUserRequest | src/client/JiraClient.ts:250-260 | a user is fetched from `/rest/api/2/user` by `accountId`, with `expand` sent exactly when given |
| Client.JiraClient.GetIssueTypesForProjectRequest | src/client/JiraClient.ts:269-283 | issue types are fetched from the create-metadata path of the project, with exactly the defaulted offset and page size |
| Client.JiraClient.GetIssueTypeFieldsRequest | src/client/JiraClient.ts:285-303 | the fields of one issue type are fetched from its create-metadata path, with exactly the defaulted offset and page size |
| Client.JiraClient.GetIssueEditMetaRequest | src/client/JiraClient.ts:305-310 | edit metadata is fetched from `.../editmeta` with no query parameters |
| Client.JiraClient.SearchIssues | src/client/JiraClient.ts:66-93 | `searchIssues`: sends `Client.JiraClient.SearchIssuesRequest` to the search endpoint and passes the reply through `Client.Call` |
| Client.JiraClient.GetIssue | src/client/JiraClient.ts:95-118 | `getIssue`: sends `Client.JiraClient.GetIssueRequest` and passes the reply through `Client.Call` |
| Client.JiraClient.GetIssueComments | src/client/JiraClient.ts:120-138 | `getIssueComments`: sends `Client.JiraClient.GetIssueCommentsRequest` and passes the reply through `Client.Call` |
| Client.JiraClient.GetIssueTransitions | src/client/JiraClient.ts:140-160 | `getIssueTransitions`: sends `Client.JiraClient.GetIssueTransitionsRequest` and passes the reply through `Client.Call` |
| Client.JiraClient.GetAllProjects | src/client/JiraClient.ts:162-173 | `getAllProjects`: sends `Client.JiraClient.GetAllProjectsRequest` and passes the reply through `Client.Call` |
| Client.JiraClient.GetProject | src/client/JiraClient.ts:175-187 | `getProject`: sends `Client.JiraClient.GetProjectRequest` and passes the reply through `Client.Call` |
| Client.JiraClient.SearchProjects | src/client/JiraClient.ts:189-216 | `searchProjects`: sends `Client.JiraClient.SearchProjectsRequest` and passes the reply through `Client.Call` |
| Client.JiraClient.GetCurrentUser | src/client/JiraClient.ts:218-227 | `getCurrentUser`: sends `Client.JiraClient.GetCurrentUserRequest` and passes the reply through `Client.Call` |
| Client.JiraClient.SearchUsers | src/client/JiraClient.ts:229-248 | `searchUsers`: sends `Client.JiraClient.SearchUsersRequest` and passes the reply through `Client.Call` |
| Client.JiraClient.GetUser | src/client/JiraClient.ts:250-262 | `getUser`: sends `Client.JiraClient.GetUserRequest` and passes the reply through `Client.Call` |
| Client.JiraClient.GetIssueTypesForProject | src/client/JiraClient.ts:269-283 | `getIssueTypesForProject`: sends `Client.JiraClient.GetIssueTypesForProjectRequest` and passes the reply through `Client.Call` |
| Client.JiraClient.GetIssueTypeFields | src/client/JiraClient.ts:285-303 | `getIssueTypeFields`: sends `Client.JiraClient.GetIssueTypeFieldsRequest` and passes the reply through `Client.Call` |
| Client.JiraClient.PageQuery | src/client/JiraClient.ts:277-278 | the `startAt` and `maxResults` parameters shared by the two create-metadata requests; their contracts state its keys and values |
| Client.JiraClient.GetIssueEditMeta | src/client/JiraClient.ts:305-310 | `getIssueEditMeta`: sends `Client.JiraClient.GetIssueEditMetaRequest` and passes the reply through `Client.Call` |
| Client.ListedMessagesWin | src/client/JiraClient.ts:50 | a non-empty `errorMessages` join wins over any `errors` map in the same body |
| Client.EmptyMessageListFallsThrough | src/client/JiraClient.ts:50-51 | an empty `errorMessages` list gives the same message as none, so the `errors` map decides |
| Client.NotFoundMessage | src/client/JiraClient.ts:54 | a 404 whose body has no messages gives `JIRA API Error: 404` |
| Client.ResponseDecides | src/client/JiraClient.ts:48-57 | when a response exists, the request flag and the transport message do not affect the result |
| Client.NormalizeRemovesOneSlash | src/client/JiraClient.ts:26-28 | a base URL ending in `//` keeps one trailing slash |
| Client.ExplicitZeroFallsBack | src/client/JiraClient.ts:83-84 | an explicit page size or offset of 0 is treated as absent |
| Client.EmptyFieldListUsesDefaults | src/client/JiraClient.ts:85 | `[]` and `[""]` as field lists both request the default fields |
| Client.DefaultFieldListsNonEmpty | src/client/JiraClient.ts:75-78 | the default lists have 11 and 17 fields and never join to the empty string |
| Schema.ElementIssues | src/server.ts:83-84 | a string array has no element issues exactly when every element is a string, and at most one issue per element |
| Schema.CheckValue | src/server.ts:83-84 | a given value is accepted exactly when it has the field's kind (an enum value must be one of the options); the accepted argument is that value |
| Schema.Validate | src/server.ts:83-84 | a missing argument object is rejected with one `Required` issue at the root; a rejection always lists at least one issue |
| Schema.CheckFieldOk | src/server.ts:83-84 | a field is valid exactly when it is present with the right kind, or absent and not required |
| Schema.ValidateAcceptsIff | src/server.ts:83-84 | validation accepts exactly the argument objects the schema describes |
| Schema.CollectValues | src/server.ts:83-85 | accepted arguments hold only schema fields: given fields keep their value, absent defaulted fields take the default, absent optional fields stay absent |
| Schema.AcceptedValue | src/server.ts:83-85 | the validated value of each field of accepted arguments |
| Schema.AcceptedConforms | src/server.ts:84-85 | accepted arguments have the shape the handler declares |
| Schema.MissingRequiredReported | src/server.ts:96-108 | a missing required field is reported as `Required` at its own path, and the call is rejected |
| Schema.ElementIssuesShape | src/server.ts:96-108 | every element issue of an array points into that field and is not a `Required` issue |
| Schema.ValueIssuesNotRequired | src/server.ts:96-108 | an issue about a value that is present is never a `Required` issue |
| Schema.RequiredIssueMeansMissing | src/server.ts:96-108 | a `Required` issue at a field's path means that field is required and was not given |
| Schema.RequiredFieldsExact | src/server.ts:60-62 | the advertised `required` list names exactly the fields that are neither optional nor defaulted |
| Schema.OmittingUnrequiredKeepsAccepted | src/server.ts:60-62 | leaving out a field that is not advertised as required never turns accepted arguments into rejected ones |
| Sorting.InsertLastPermutes | src/tools/fields.ts:139 | inserting into the sorted prefix keeps the elements as a multiset |
| Sorting.InsertLastSorted | src/tools/fields.ts:139 | inserting into a sorted sequence keeps it sorted |
| Sorting.StableSortCorrect | src/tools/fields.ts:139 | the sort result is ordered by name and is a permutation of its input |
| Sorting.StableSort | src/tools/fields.ts:139 | the stable sort the two field tools use; `Sorting.StableSortCorrect` and `Sorting.StableSortLength` state its contract, and `Sorting.SortInPlace` computes it on an array |
| Sorting.StableSortLength | src/tools/fields.ts:139 | the sort keeps the length |
| Sorting.InsertLastAt | src/tools/fields.ts:139 | the insertion puts the element after the last one it does not precede, and shifts the rest by one |
| Sorting.InsertAt | src/tools/fields.ts:139 | one step of the in-place sort: the prefix up to `i` becomes the insertion of `a[i]` into the sorted prefix, and nothing after `i` changes |
| Sorting.SortInPlace | src/tools/fields.ts:139 | sorting the array in place leaves the stable sort of its old contents |
| IssueTools.SchemasWellFormed | src/tools/issues.ts:4-30 | the four issue schemas have distinct field names and defaults of their fields' kinds |
| IssueTools.SearchIssuesArguments | src/tools/issues.ts:4-11 | validated search input has the given jql, and the given `maxResults` and `startAt` or else 50 and 0 |
| IssueTools.CommentsArguments | src/tools/issues.ts:21-25 | validated comments input defaults to 50 comments from offset 0 |
| IssueTools.TransitionsArguments | src/tools/issues.ts:27-30 | validated transitions input leaves out unavailable transitions unless asked |
| IssueTools.AssigneeName | src/tools/issues.ts:60 | the assignee's display name when it is non-empty, else `Unassigned` |
| IssueTools.ComponentNames | src/tools/issues.ts:71 | the component names, in order |
| IssueTools.SummarizeIssue | src/tools/issues.ts:54-72 | a summary keeps key, id and summary; assignee as above; labels as given; component names exactly when there are components |
| IssueTools.SummarizeSearch | src/tools/issues.ts:50-72 | the counters pass through; `isLast` holds exactly when `startAt + issues >= total`; one summary per issue, in order |
| IssueTools.SearchIssues | src/tools/issues.ts:36-81 | the search handler succeeds exactly when the remote search on the client's request does, with the summarised page, and otherwise fails with the normalised message |
| IssueTools.SearchIssuesRequestParameters | src/tools/issues.ts:39-45 | the search request carries the validated offset, the validated page size unless it is 0, never a page size of 0, and no `validateQuery` |
| IssueTools.PersonOf | src/tools/issues.ts:111-120 | an absent assignee or reporter gives `null`, not `Unassigned`; a present one keeps its name, account and e-mail |
| IssueTools.CustomFields | src/tools/issues.ts:142-144 | the filter-and-reduce over the issue fields; its contract is stated by `IssueTools.CustomFieldsExact` and `IssueTools.CustomFieldsOrdered` |
| IssueTools.CustomFieldsExact | src/tools/issues.ts:142-144 | an entry is kept exactly when its key starts with `customfield_`, with its original value |
| IssueTools.CustomFieldsOrdered | src/tools/issues.ts:142-144 | the kept entries are a subsequence of the input (so in their original order and no more of them), and distinct keys stay distinct |
| IssueTools.NamedFieldsAreNotCustom | src/tools/issues.ts:142-144 | none of the named issue fields has the custom-field prefix |
| IssueTools.DetailIssue | src/tools/issues.ts:96-145 | the details keep key and id, description and `resolved`; give persons for assignee and reporter; and give exactly the custom fields |
| IssueTools.GetIssue | src/tools/issues.ts:87-153 | the get-issue handler succeeds exactly when the remote fetch does, with the details, and otherwise fails with the normalised message |
| IssueTools.BodyText | src/tools/issues.ts:175 | a string body passes through unchanged, any other body is serialised, and an absent body stays absent |
| IssueTools.SummarizeComments | src/tools/issues.ts:166-180 | the counters pass through; one comment per comment, in order, keeping its id and its body text |
| IssueTools.GetIssueComments | src/tools/issues.ts:159-188 | the comments handler succeeds exactly when the remote fetch does, with the summarised page, and otherwise fails with the normalised message |
| IssueTools.Available | src/tools/issues.ts:211 | a transition is unavailable only when its flag is literally false |
| IssueTools.SummarizeTransitions | src/tools/issues.ts:200-216 | one summary per transition, in order, keeping id and name; unavailable only on an explicit false |
| IssueTools.GetIssueTransitions | src/tools/issues.ts:194-224 | the transitions handler succeeds exactly when the remote fetch does, with the summaries, and otherwise fails with the normalised message |
| IssueTools.TransitionsRequestFlag | src/tools/issues.ts:196-198 | the transitions request always says whether to include unavailable transitions, as validated |
| ProjectTools.SchemasWellFormed | src/tools/projects.ts:4-22 | the three project schemas have distinct field names and defaults of their kinds |
| ProjectTools.SearchProjectsInputOf | src/tools/projects.ts:18-21 | validated search input always has an order and an action from their enums |
| ProjectTools.SearchProjectsArguments | src/tools/projects.ts:14-22 | a project search defaults to order `key`, action `browse`, page size 50 and offset 0 |
| ProjectTools.SearchProjectsEnumsEnforced | src/tools/projects.ts:18-21 | an order or an action outside its enum is rejected |
| ProjectTools.IsPrivate | src/tools/projects.ts:45 | a project is private exactly when `simplified` is literally false |
| ProjectTools.SummarizeProject | src/tools/projects.ts:39-47 | a summary keeps key, id and name, and is private exactly when `simplified` is false |
| ProjectTools.SummarizeProjects | src/tools/projects.ts:39-47 | one summary per project, in order |
| ProjectTools.ListOf | src/tools/projects.ts:37-48 | `total` is the number of projects returned, and the list keeps their order |
| ProjectTools.ListProjects | src/tools/projects.ts:28-56 | the list handler succeeds exactly when the remote list does, with that list, and otherwise fails with the normalised message |
| ProjectTools.DetailProject | src/tools/projects.ts:70-107 | `lead` and `category` are undefined exactly when absent from the payload and carry its values when present; privacy as above; one component per component |
| ProjectTools.GetProject | src/tools/projects.ts:62-116 | the get-project handler succeeds exactly when the remote fetch does, with the details, and otherwise fails with the normalised message |
| ProjectTools.SearchPageOf | src/tools/projects.ts:136-149 | `total`, `startAt`, `maxResults` and `isLast` pass through unchanged; the projects are summarised in order |
| ProjectTools.SearchProjects | src/tools/projects.ts:122-158 | the search handler succeeds exactly when the remote search does, with that page, and otherwise fails with the normalised message |
| ProjectTools.SearchProjectsRequestCarriesEnums | src/tools/projects.ts:124-132 | a validated order and action reach the request unchanged |
| UserTools.SchemasWellFormed | src/tools/users.ts:4-18 | the three user schemas have distinct field names and defaults of their kinds |
| UserTools.RequiredUserFields | src/tools/users.ts:8-18 | `accountId` is the only required field of a get-user call; the other two user tools require nothing |
| UserTools.SearchUsersArguments | src/tools/users.ts:13-18 | a user search defaults to 50 users from offset 0 |
| UserTools.InfoOf | src/tools/users.ts:32-40 | the single-user record keeps account id, display name and time zone |
| UserTools.ListingOf | src/tools/users.ts:97-104 | a search listing keeps account id and display name |
| UserTools.ListingOmitsTimeZone | src/tools/users.ts:30-104 | the search listing does not depend on the time zone, while the single-user record carries it |
| UserTools.UsersOf | src/tools/users.ts:95-105 | `total` is the number of users returned, and the listing keeps their order |
| UserTools.GetCurrentUser | src/tools/users.ts:24-48 | the current-user handler succeeds exactly when the remote fetch does, with the user record, and otherwise fails with the normalised message |
| UserTools.GetUser | src/tools/users.ts:54-78 | the get-user handler succeeds exactly when the remote fetch of that account does, with the user record, and otherwise fails with the normalised message |
| UserTools.SearchUsers | src/tools/users.ts:84-113 | the search handler succeeds exactly when the remote search does, with the listing, and otherwise fails with the normalised message |
| FieldTools.SchemasWellFormed | src/tools/fields.ts:4-24 | the four field schemas have distinct field names and defaults of their kinds |
| FieldTools.IssueTypesOf | src/tools/fields.ts:39-51 | the page counters pass through; one issue type per value, in order, keeping id, name, description, subtask flag and icon URL |
| FieldTools.GetIssueTypes | src/tools/fields.ts:30-59 | the issue-types handler succeeds exactly when the remote fetch does, with that page, and otherwise fails with the normalised message |
| FieldTools.FieldsArray | src/tools/fields.ts:77-94 | no fields object gives no entries; otherwise one entry per field, in object order, keeping key, name, required flag, schema, default-value flag, operations, allowed values and auto-complete URL |
| FieldTools.TypeFieldsOf | src/tools/fields.ts:96-107 | the issue-type header, the fields array, and `totalFields` equal to its length |
| FieldTools.GetIssueTypeFields | src/tools/fields.ts:65-115 | the type-fields handler succeeds exactly when the remote fetch does, with that result, and otherwise fails with the normalised message |
| FieldTools.FieldNameOf | src/tools/fields.ts:131 | `custom` holds exactly when the field's schema has a `custom` value |
| FieldTools.FieldNameList | src/tools/fields.ts:126-132 | one entry per edit-metadata field, in object order |
| FieldTools.FieldNamesOf | src/tools/fields.ts:126-140 | the field-names data; `FieldTools.FieldNamesOfCorrect` states its contract |
| FieldTools.FieldNamesOfCorrect | src/tools/fields.ts:134-140 | the field-names result echoes the issue key, counts every field, and lists them all sorted by name |
| FieldTools.SortFieldNames | src/tools/fields.ts:139 | the in-place sort of the field names gives their stable sort by name |
| FieldTools.GetIssueFieldNames | src/tools/fields.ts:121-148 | the field-names handler succeeds exactly when the edit-metadata fetch does, with the sorted names, and otherwise fails with the normalised message |
| FieldTools.MatchOf | src/tools/fields.ts:174-181 | `custom` holds exactly when the field's schema has a `custom` value |
| FieldTools.CollectMatches | src/tools/fields.ts:168-185 | the nested loop collects, for each field in order, its first matching term, and skips the fields that match no term |
| FieldTools.SortMatches | src/tools/fields.ts:193 | the in-place sort of the matches gives their stable sort by name |
| FieldTools.SearchIssueFields | src/tools/fields.ts:154-202 | the field-search handler succeeds exactly when the edit-metadata fetch does, with the sorted matches, and otherwise fails with the normalised message |
| FieldTools.FirstMatch | src/tools/fields.ts:169-183 | the inner loop with its `break`: the first search term that matches a field; `FieldTools.FirstMatchIsFirst` states its contract |
| FieldTools.MatchesOf | src/tools/fields.ts:168-185 | the fields that match some term, in entry order; `FieldTools.MatchesOfMembers` and `FieldTools.MatchesOfOnce` state its contract, and `FieldTools.CollectMatches` computes it with the nested loop |
| FieldTools.FieldSearchOf | src/tools/fields.ts:187-194 | the field-search data; `FieldTools.FieldSearchOfCorrect` and `FieldTools.FieldSearchMembers` state its contract |
| FieldTools.FirstMatchIsFirst | src/tools/fields.ts:169-183 | a field has a matched term exactly when some term matches, and the term recorded is the first one in search order that matches |
| FieldTools.MatchesOfMembers | src/tools/fields.ts:168-185 | the matches are exactly the fields with a matching term, each with its first matching term; a field matching no term is excluded |
| FieldTools.MatchesOfOnce | src/tools/fields.ts:182 | each field appears at most once among the matches |
| FieldTools.FieldSearchOfCorrect | src/tools/fields.ts:187-194 | the search result echoes the issue key and search terms, counts its matches, and lists them sorted by name as a permutation of the collected matches |
| FieldTools.FieldSearchMembers | src/tools/fields.ts:168-193 | a record is among the sorted matches exactly when some field matched with it |
| FieldTools.TermMatchIgnoresCase | src/tools/fields.ts:170-173 | matching is insensitive to the case of both the term and the name |
| FieldTools.EmptyTermMatchesAll | src/tools/fields.ts:173 | an empty search term matches every field |
| Server.SchemaOfWellFormed | src/server.ts:44-50 | every handler's schema has distinct names and defaults of the right kinds |
| Server.Lookup | src/server.ts:74 | `this.tools[name]` among the own properties; `Server.LookupNoneIfAbsent` and `Server.LookupFound` state its contract |
| Server.Put | src/server.ts:45-49 | one property assignment of a spread; `Server.PutLookup`, `Server.PutKeepsPositions` and `Server.PutAbsent` state its contract |
| Server.Spread | src/server.ts:45-49 | `{...acc, ...m}`; `Server.SpreadLookup`, `Server.SpreadKeepsPositions` and `Server.SpreadDisjoint` state its contract |
| Server.Registry | src/server.ts:44-50 | the object `initializeTools` builds; `Server.RegistryLookup` and `Server.RegistryContents` state its contract |
| Server.PutLookup | src/server.ts:45-49 | after assigning a property, it reads the new tool and every other name reads as before |
| Server.PutKeepsPositions | src/server.ts:45-49 | assigning a property keeps every existing key at its position and adds at most one |
| Server.SpreadLookup | src/server.ts:45-49 | after a spread, a name the spread object defines reads its value; any other name keeps its old value |
| Server.LookupNoneIfAbsent | src/server.ts:74 | a lookup finds nothing exactly when no entry has that name |
| Server.SpreadKeepsPositions | src/server.ts:45-49 | a spread keeps the keys already present at their positions |
| Server.ToolMapsDistinct | src/server.ts:45-49 | no tool object defines a name twice |
| Server.RegistryLookup | src/server.ts:44-50 | registry lookup gives the user tool, else the project tool, else the issue tool of that name |
| Server.PutAbsent | src/server.ts:45-49 | assigning a new name appends it |
| Server.SpreadDisjoint | src/server.ts:45-49 | spreading an object whose keys are all new appends its entries in order |
| Server.Names | src/server.ts:54 | the names of the registry entries, in order |
| Server.SpreadIssueTools | src/server.ts:46 | spreading the issue tools into an empty object gives them in order |
| Server.SpreadProjectTools | src/server.ts:47 | the project tools follow the issue tools |
| Server.SpreadUserTools | src/server.ts:48 | the user tools follow the project tools |
| Server.RegistryContents | src/server.ts:44-50 | the registry is the issue, project and user tools, in that order, and nothing else |
| Server.FieldToolsNotRegistered | src/server.ts:44-50 | no field tool can be looked up in the registry |
| Server.NotRegistered | src/server.ts:44-50 | none of the four field-tool names is defined by the issue, project or user tool objects |
| Server.Discover | src/server.ts:53-69 | one descriptor per registered tool, in registry order, with its name, its schema's fields and its required fields |
| Server.AdvertisedRequiredIsEnforced | src/server.ts:60-84 | an advertised required field that is missing gets the call rejected with an issue naming it; any other field may be left out of accepted arguments |
| Server.RegistryRequiredFields | src/server.ts:60-62 | ten tools are advertised; get-user requires exactly `accountId`, and user search requires nothing |
| Server.RegisteredUserEntries | src/server.ts:44-50 | the last two registered tools are get-user and user search |
| Server.RunFieldNames | src/tools/fields.ts:121-148 | running the field-names handler with its loops gives that handler's result |
| Server.RunFieldSearch | src/tools/fields.ts:154-202 | running the field-search handler with its loops gives that handler's result |
| Server.Dispatch | src/server.ts:85 | `tool.handler(this.client, validatedArgs)` on arguments of the tool's own shape; `Server.RunHandler` runs it and `Server.CallOutcomes` places it in the answer |
| Server.RunHandler | src/server.ts:85 | running the handler of a tool on validated arguments gives the result of that tool's handler |
| Server.Decide | src/server.ts:74-85 | the corrected checks, where only own tools are found: only validated arguments that fit the tool's own schema reach a handler, and nothing ends in the catch-all |
| Server.DecideAsWritten | src/server.ts:74-85 | the checks as written, which the server runs: a handler is reached only with a client and with validated arguments of the tool's own shape |
| Server.Respond | src/server.ts:76-121 | the answer to each decision; `Server.CallOutcomes` states it for every case |
| Server.CallSpec | src/server.ts:71-121 | one call, as written; `Server.CallOutcomes` and `Server.CallChecksInOrder` state its contract |
| Server.LookupFound | src/server.ts:74 | a found tool is the value of some registry entry with that name |
| Server.CallChecksInOrder | src/server.ts:74-85 | as written: a name that is neither a tool nor inherited is reported before a missing client, a missing client before any argument is checked, an inherited name with a client ends in the catch-all with the TypeError message, and invalid arguments are reported exactly when a found tool's validation fails |
| Server.CallOutcomes | src/server.ts:74-122 | the two early checks throw `Tool "<name>" not found` (for a name that is neither a tool nor inherited) and the client message; an inherited name with a client gives one error item with the TypeError message; rejected arguments give one invalid-arguments item; accepted arguments give exactly one item holding the handler's result |
| Server.CallRejectsMissingRequired | src/server.ts:96-108 | a call missing a required field gets the invalid-arguments body, whose details name that field |
| Server.CallWithoutArguments | src/server.ts:84-108 | a call with no arguments object is rejected as a whole |
| Server.RegistryNeverRunsFieldTools | src/server.ts:44-85 | no call through the registry runs a field-tool handler |
| Server.RegisteredHandler | src/server.ts:44-50 | no registered entry is a field tool |
| Server.CallGetUser | src/server.ts:74-85 | `jira_get_user` with only an account id runs the get-user handler on that id with no `expand` |
| Server.GetUserRegistered | src/server.ts:44-50 | the registry's `jira_get_user` entry is the get-user handler |
| Server.GetUserArguments | src/tools/users.ts:8-11 | a lone account id is a valid get-user argument object |
| Server.InheritedNameIsNotReportedMissing | src/server.ts:74-77 | as written, `toString` is answered with a TypeError message, while the corrected check reports it not found |
| Server.DecideAsWrittenAgrees | src/server.ts:74-85 | for any name that is not inherited from `Object.prototype`, the checks as written and the corrected checks agree |
| Server.ParseInt | src/server.ts:155-156 | `parseInt(value, 10)`; `Server.ParseIntReadsPrinted`, `Server.ParseNegative`, `Server.ParseUnsigned` and `Server.WordsAreNotNumbers` state its contract |
| Server.TrimStart | src/server.ts:155-156 | `parseInt` skips leading white space: the rest starts with something else |
| Server.DigitPrefix | src/server.ts:155-156 | the digits read are the longest run of digits at the start |
| Server.DigitsValueOfNat | src/server.ts:155-156 | reading the digits of a printed natural number gives it back |
| Server.DigitPrefixOfDigits | src/server.ts:155-156 | reading stops exactly where the digits end |
| Server.LeadingDigits | src/server.ts:155-156 | digits followed by a non-digit read as their value |
| Server.TrimStartNoSpace | src/server.ts:155-156 | a string that does not start with white space is not trimmed |
| Server.ParseNegative | src/server.ts:155-156 | a leading minus negates what the rest reads as, and NaN stays NaN |
| Server.ParseUnsigned | src/server.ts:155-156 | a string starting with a digit reads as its leading number |
| Server.ParseIntOfNegative | src/server.ts:155-156 | a minus, digits, then a non-digit reads as the negated value of the digits |
| Server.ReadsNegative | src/server.ts:155-156 | a printed negative number reads back, whatever non-digit follows it |
| Server.NatDigits | src/server.ts:155-156 | a printed natural number is all digits |
| Server.SignAssociates | src/server.ts:155-156 | a sign in front of digits and a suffix reads the same however the parts are grouped |
| Server.ReadsNat | src/server.ts:155-156 | a printed natural number reads back, whatever non-digit follows it |
| Server.ParseIntReadsPrinted | src/server.ts:155-156 | `parseInt` reads back any printed integer, stopping at the first non-digit (`"12px"` reads as 12) |
| Server.NumberSetting | src/server.ts:155-156 | an unset or empty variable gives the default; a set, non-empty one gives `parseInt` of its value |
| Server.ConfigFrom | src/server.ts:145-163 | no configuration unless all three credentials are set and non-empty; a configuration loads exactly when the credentials are set, pass the URL and e-mail checks and both numbers parse; a loaded one holds those credentials and numbers |
| Server.LoadConfig | src/server.ts:143-189 | the environment first, then the `.env` file; `Server.ValidEnvironmentLoads`, `Server.DotenvLoads`, `Server.EnvironmentCredentialsWin`, `Server.LoadedConfigShape` and `Server.UnparsableNumberRejects` state its contract |
| Server.ValidEnvironmentLoads | src/server.ts:149-158 | credentials in the environment that pass the checks, with numbers that parse, give exactly that configuration, whatever the `.env` file holds |
| Server.DotenvLoads | src/server.ts:165-188 | without credentials in the environment there is no configuration unless the `.env` file loads, and then one exactly when the file's entries under the environment make a valid configuration, which is the one returned |
| Server.EnvironmentCredentialsWin | src/server.ts:149-163 | with credentials in the environment the `.env` file is never consulted, even when that configuration is invalid |
| Server.LoadedConfigShape | src/server.ts:143-189 | a loaded configuration comes from all three credentials of the environment used; its numbers are present and default to 50 and 30000 |
| Server.UnparsableNumberRejects | src/server.ts:155-162 | either numeric variable, set to any value `parseInt` reads as NaN, makes the configuration invalid rather than defaulting |
| Server.WordsAreNotNumbers | src/server.ts:155-156 | `soon`, a lone sign after a space, and a sign followed by a letter are NaN to `parseInt` |
| Server.JiraMCPServer.constructor | src/server.ts:27-42 | a new server holds the registry and no client |
| Server.JiraMCPServer.InitializeTools | src/server.ts:44-50 | the tools become the merged registry; the client is unchanged |
| Server.JiraMCPServer.Connect | src/server.ts:126-141 | a fresh client on the loaded configuration exactly when one loads; otherwise the client is unchanged; the tools never change |
| Server.JiraMCPServer.ListTools | src/server.ts:53-69 | the list-tools answer is the discovery of the current tools |
| Server.JiraMCPServer.CallTool | src/server.ts:71-123 | the call-tool answer is the as-written outcome on the current tools and client, including the catch-all answer for inherited names, with the field tools' loops run as methods |

## Left out

- The HTTP client library, its interceptor wiring, the request headers and Bearer authentication. Each endpoint is an oracle from the request to a payload or an error record, and `Client.Call` applies the interceptor's error normalisation.
- The MCP SDK server object, the transport, `src/index.ts` and the request and response framing. `ListTools` and `CallTool` are the two request handlers.
- Asynchrony. Every call is one sequential round trip.
- The process environment and the `.env` file. Both are parameters of `LoadConfig` (`None` when the file cannot be loaded). The URL and e-mail checks of the configuration schema are predicate parameters.
- The remote error body is a parsed record. A `null` or `undefined` body, on which the interceptor throws a TypeError, is not modelled. Any other body that is not an object, such as an HTML page from a proxy, reads as having neither field, so it gives `JIRA API Error: <status>`, as `ErrorResponse(None, None, status)` does.
- Numbers are integers. Floating point, NaN other than as parse failure, `-0` and the 64-bit range are not modelled.
- `JSON.stringify` text. A response item carries the value it serialises rather than the pretty-printed text, and `Json.Serialize` stands for serialising a comment body without indentation.
- Schema.ValidationIssue: keeps only the `path` and `message` of each validation issue. The `code`, `expected` and `received` that `details: error.errors` also prints are not modelled.
- Json.Serialize: lone surrogate code points, which `JSON.stringify` writes as `\uXXXX`, cannot occur, because a Dafny `char` is a Unicode scalar value.
- Tool and field descriptions. They are text for clients and carry no behaviour.
- `toLowerCase` is modelled on ASCII: lower-casing touches only `A`–`Z`. `localeCompare` is replaced by lexicographic order on character codes, which sorts every upper-case letter before every lower-case one, unlike the runtime's collation. For example, the model puts `Story Points` before `assignee`, and the runtime puts `assignee` first. The sorted lists of the two field tools therefore come out in a fixed total order that can differ from the runtime's on mixed-case names. The runtime's stable sort is a stable insertion sort by that order.
- `Object.entries` order, which puts integer-like keys first. A JavaScript object is its list of entries in the order `Object.entries` gives them, and its keys are assumed distinct.
- `parseInt` skips only ASCII white space. Unicode spaces are not modelled.
- `getAllFields` (src/client/JiraClient.ts:264-267): no handler calls it.
- The transitions endpoint answers `{transitions: [...]}` (src/client/JiraClient.ts:145-157). Its oracle returns the list directly.
- Handlers crashing on malformed payloads, such as a missing `fields` object. Payloads always have the declared shape.
- The four field tools are defined but never merged into the registry (src/server.ts:44-50). The model follows the code: they cannot be called, and their handlers are proved on their own.
- The `catch` around the client constructor in `connect` (src/server.ts:130-135): the modelled constructor cannot fail.
- Client.JiraClient.SearchExtras: states only whether `expand`, `properties` and `validateQuery` are sent, not the comma-joined values sent for them.
- Client.JiraClient.ProjectSearchExtras: states only whether `query`, `typeKey`, `categoryId`, `expand` and `status` are sent, not the comma-joined values sent for the list-valued ones.
- Client.JiraClient.SearchIssuesRequest: states the presence of its optional parameters via `Client.JiraClient.SearchExtras` rather than key by key.
- Client.JiraClient.GetIssueRequest: states which parameters are present, not that no other parameter is sent, nor the joined text of list-valued optional parameters.
- Client.JiraClient.GetIssueCommentsRequest: states which parameters are present, not that no other parameter is sent, nor the joined text of list-valued optional parameters.
- Client.JiraClient.GetIssueTransitionsRequest: states which parameters are present, not that no other parameter is sent, nor the joined text of list-valued optional parameters.
- Client.JiraClient.GetAllProjectsRequest: states which parameters are present, not that no other parameter is sent, nor the joined text of list-valued optional parameters.
- Client.JiraClient.GetProjectRequest: states which parameters are present, not that no other parameter is sent, nor the joined text of list-valued optional parameters.
- Client.JiraClient.SearchProjectsRequest: states which parameters are present, not that no other parameter is sent, nor the joined text of list-valued optional parameters.
- Client.JiraClient.GetCurrentUserRequest: states which parameters are present, not that no other parameter is sent, nor the joined text of list-valued optional parameters.
- Client.JiraClient.SearchUsersRequest: states which parameters are present, not that no other parameter is sent, nor the joined text of list-valued optional parameters.
- Client.JiraClient.GetUserRequest: states which parameters are present, not that no other parameter is sent, nor the joined text of list-valued optional parameters.

## Findings

| source | as written | input that shows it | evidently intended | confidence | as-written member | corrected member |
|---|---|---|---|---|---|---|
| src/server.ts:74-77 | `this.tools[name]` on a plain object literal also finds the names it inherits from `Object.prototype`. Such a name passes the `!tool` check, then `tool.inputSchema.parse` throws a TypeError inside the `try`, and the catch-all answers it | a call of the tool `toString` with a client present is answered with `Cannot read properties of undefined (reading 'parse')` | only registered tools are found, and any other name throws `Tool "toString" not found` | not executed | Server.DecideAsWritten (shown by Server.InheritedNameIsNotReportedMissing) | Server.Decide |
