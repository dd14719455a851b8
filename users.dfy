/** The three user tools: the current user, one user, and a user search. */
module UserTools {
  import opened Json
  import opened Results
  import opened JiraTypes
  import opened Client
  import opened Schema

  // ---------------------------------------------------------------------
  // Schemas and typed inputs

  const GetCurrentUserSchema: ObjectSchema := [
    FieldSpec("expand", StringKind, Optional)]

  const GetUserSchema: ObjectSchema := [
    FieldSpec("accountId", StringKind, Required),
    FieldSpec("expand", StringKind, Optional)]

  const SearchUsersSchema: ObjectSchema := [
    FieldSpec("query", StringKind, Optional),
    FieldSpec("accountId", StringKind, Optional),
    FieldSpec("maxResults", NumberKind, Default(NumArg(50))),
    FieldSpec("startAt", NumberKind, Default(NumArg(0)))]

  lemma SchemasWellFormed()
    ensures WellFormed(GetCurrentUserSchema) && WellFormed(GetUserSchema) && WellFormed(SearchUsersSchema)
  {
  }

  datatype CurrentUserInput = CurrentUserInput(expand: Option<string>)
  datatype GetUserInput = GetUserInput(accountId: string, expand: Option<string>)
  datatype SearchUsersInput = SearchUsersInput(
    query: Option<string>, accountId: Option<string>, maxResults: int, startAt: int)

  function CurrentUserInputOf(args: Args): CurrentUserInput
    requires Conforms(GetCurrentUserSchema, args)
  {
    CurrentUserInput(OptStr(args, "expand"))
  }

  function GetUserInputOf(args: Args): GetUserInput
    requires Conforms(GetUserSchema, args)
  {
    assert FieldConforms(GetUserSchema[0], args);
    GetUserInput(args["accountId"].s, OptStr(args, "expand"))
  }

  function SearchUsersInputOf(args: Args): SearchUsersInput
    requires Conforms(SearchUsersSchema, args)
  {
    assert FieldConforms(SearchUsersSchema[2], args);
    assert FieldConforms(SearchUsersSchema[3], args);
    SearchUsersInput(OptStr(args, "query"), OptStr(args, "accountId"), args["maxResults"].n, args["startAt"].n)
  }

  /** `accountId` is the only field a get-user call must give, and a
      user search needs none. */
  lemma {:induction false} RequiredUserFields()
    ensures RequiredFields(GetUserSchema) == ["accountId"]
    ensures RequiredFields(SearchUsersSchema) == []
    ensures RequiredFields(GetCurrentUserSchema) == []
  {
    assert GetUserSchema[1..] == [GetUserSchema[1]];
    assert SearchUsersSchema[1..][1..][1..][1..] == [];
  }

  /** A user search returns pages of 50 from offset 0 unless told otherwise. */
  lemma SearchUsersArguments(raw: map<string, Json>)
    ensures var v := Validate(SearchUsersSchema, Some(raw));
      v.Accepted? ==>
        Conforms(SearchUsersSchema, v.args) &&
        var input := SearchUsersInputOf(v.args);
        ("maxResults" !in raw ==> input.maxResults == 50) &&
        ("startAt" !in raw ==> input.startAt == 0)
  {
    var v := Validate(SearchUsersSchema, Some(raw));
    if v.Accepted? {
      SchemasWellFormed();
      AcceptedConforms(SearchUsersSchema, raw);
      AcceptedValue(SearchUsersSchema, raw, 2);
      AcceptedValue(SearchUsersSchema, raw, 3);
    }
  }

  // ---------------------------------------------------------------------
  // Projections

  /** A user as the current-user and get-user tools return it. */
  datatype UserInfo = UserInfo(
    accountId: string,
    displayName: string,
    emailAddress: Option<string>,
    active: bool,
    timeZone: Option<string>,
    accountType: Option<string>,
    avatarUrls: Option<AvatarUrls>)

  /** A user as the search tool lists it: no time zone. */
  datatype UserListing = UserListing(
    accountId: string,
    displayName: string,
    emailAddress: Option<string>,
    active: bool,
    accountType: Option<string>,
    avatarUrls: Option<AvatarUrls>)

  function InfoOf(u: User): (r: UserInfo)
    ensures r.accountId == u.accountId && r.displayName == u.displayName && r.timeZone == u.timeZone
  {
    UserInfo(u.accountId, u.displayName, u.emailAddress, u.active, u.timeZone, u.accountType, u.avatarUrls)
  }

  function ListingOf(u: User): (r: UserListing)
    ensures r.accountId == u.accountId && r.displayName == u.displayName
  {
    UserListing(u.accountId, u.displayName, u.emailAddress, u.active, u.accountType, u.avatarUrls)
  }

  /** The search listing does not depend on the time zone, whereas the
      single-user record carries it. */
  lemma ListingOmitsTimeZone(u: User, tz: Option<string>)
    ensures ListingOf(u.(timeZone := tz)) == ListingOf(u)
    ensures InfoOf(u.(timeZone := tz)).timeZone == tz
  {
  }

  datatype UsersData = UsersData(total: int, users: seq<UserListing>)

  /** The search result: as many users as the server returned, in order. */
  function UsersOf(us: seq<User>): (r: UsersData)
    ensures r.total == |r.users| == |us|
    ensures forall i :: 0 <= i < |us| ==> r.users[i] == ListingOf(us[i])
  {
    UsersData(|us|, seq(|us|, i requires 0 <= i < |us| => ListingOf(us[i])))
  }

  function GetCurrentUser(client: JiraClient, input: CurrentUserInput, remote: Remote): (r: ToolResult<UserInfo>)
    ensures var reply := remote.user(client.GetCurrentUserRequest(input.expand));
      (r.Success? <==> reply.Ok?) &&
      (reply.Ok? ==> r.data == InfoOf(reply.payload)) &&
      (reply.Err? ==> r.error == HandleError(reply.error))
  {
    Handle(client.GetCurrentUser(remote, input.expand), InfoOf)
  }

  function GetUser(client: JiraClient, input: GetUserInput, remote: Remote): (r: ToolResult<UserInfo>)
    ensures var reply := remote.user(client.GetUserRequest(input.accountId, input.expand));
      (r.Success? <==> reply.Ok?) &&
      (reply.Ok? ==> r.data == InfoOf(reply.payload)) &&
      (reply.Err? ==> r.error == HandleError(reply.error))
  {
    Handle(client.GetUser(remote, input.accountId, input.expand), InfoOf)
  }

  function SearchOptionsOf(input: SearchUsersInput): UserSearchOptions {
    UserSearchOptions(input.query, None, input.accountId, Some(input.startAt), Some(input.maxResults), None)
  }

  function SearchUsers(client: JiraClient, input: SearchUsersInput, remote: Remote): (r: ToolResult<UsersData>)
    ensures var reply := remote.users(client.SearchUsersRequest(SearchOptionsOf(input)));
      (r.Success? <==> reply.Ok?) &&
      (reply.Ok? ==> r.data == UsersOf(reply.payload)) &&
      (reply.Err? ==> r.error == HandleError(reply.error))
  {
    Handle(client.SearchUsers(remote, SearchOptionsOf(input)), UsersOf)
  }
}
