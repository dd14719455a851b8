/** The four field tools: issue types of a project, the create-metadata
    fields of one issue type, the names of an issue's editable fields, and
    the search of those fields by name. The last two sort their result by
    field name in place; the search is a nested loop that records each field
    at most once, with the first search term it matches. */
module FieldTools {
  import opened Text
  import opened Json
  import opened Results
  import opened JiraTypes
  import opened Client
  import opened Schema
  import opened Sorting

  // ---------------------------------------------------------------------
  // Schemas and typed inputs

  const GetIssueTypesSchema: ObjectSchema := [
    FieldSpec("projectIdOrKey", StringKind, Required),
    FieldSpec("maxResults", NumberKind, Default(NumArg(50))),
    FieldSpec("startAt", NumberKind, Default(NumArg(0)))]

  const GetIssueTypeFieldsSchema: ObjectSchema := [
    FieldSpec("projectIdOrKey", StringKind, Required),
    FieldSpec("issueTypeId", StringKind, Required),
    FieldSpec("maxResults", NumberKind, Default(NumArg(50))),
    FieldSpec("startAt", NumberKind, Default(NumArg(0)))]

  const GetIssueFieldNamesSchema: ObjectSchema := [
    FieldSpec("issueIdOrKey", StringKind, Required)]

  const SearchIssueFieldsSchema: ObjectSchema := [
    FieldSpec("issueIdOrKey", StringKind, Required),
    FieldSpec("searchTerms", StringArrayKind, Required)]

  lemma SchemasWellFormed()
    ensures WellFormed(GetIssueTypesSchema) && WellFormed(GetIssueTypeFieldsSchema)
    ensures WellFormed(GetIssueFieldNamesSchema) && WellFormed(SearchIssueFieldsSchema)
  {
  }

  datatype IssueTypesInput = IssueTypesInput(projectIdOrKey: string, maxResults: int, startAt: int)
  datatype TypeFieldsInput = TypeFieldsInput(projectIdOrKey: string, issueTypeId: string, maxResults: int, startAt: int)
  datatype FieldNamesInput = FieldNamesInput(issueIdOrKey: string)
  datatype FieldSearchInput = FieldSearchInput(issueIdOrKey: string, searchTerms: seq<string>)

  function IssueTypesInputOf(args: Args): IssueTypesInput
    requires Conforms(GetIssueTypesSchema, args)
  {
    assert FieldConforms(GetIssueTypesSchema[0], args);
    assert FieldConforms(GetIssueTypesSchema[1], args);
    assert FieldConforms(GetIssueTypesSchema[2], args);
    IssueTypesInput(args["projectIdOrKey"].s, args["maxResults"].n, args["startAt"].n)
  }

  function TypeFieldsInputOf(args: Args): TypeFieldsInput
    requires Conforms(GetIssueTypeFieldsSchema, args)
  {
    assert FieldConforms(GetIssueTypeFieldsSchema[0], args);
    assert FieldConforms(GetIssueTypeFieldsSchema[1], args);
    assert FieldConforms(GetIssueTypeFieldsSchema[2], args);
    assert FieldConforms(GetIssueTypeFieldsSchema[3], args);
    TypeFieldsInput(args["projectIdOrKey"].s, args["issueTypeId"].s, args["maxResults"].n, args["startAt"].n)
  }

  function FieldNamesInputOf(args: Args): FieldNamesInput
    requires Conforms(GetIssueFieldNamesSchema, args)
  {
    assert FieldConforms(GetIssueFieldNamesSchema[0], args);
    FieldNamesInput(args["issueIdOrKey"].s)
  }

  function FieldSearchInputOf(args: Args): FieldSearchInput
    requires Conforms(SearchIssueFieldsSchema, args)
  {
    assert FieldConforms(SearchIssueFieldsSchema[0], args);
    assert FieldConforms(SearchIssueFieldsSchema[1], args);
    FieldSearchInput(args["issueIdOrKey"].s, args["searchTerms"].items)
  }

  // ---------------------------------------------------------------------
  // jira_get_issue_types

  datatype IssueTypeSummary = IssueTypeSummary(
    id: string, name: string, description: Option<string>, subtask: bool, iconUrl: Option<string>)

  datatype IssueTypesData = IssueTypesData(
    total: int, startAt: int, maxResults: int, isLast: bool, issueTypes: seq<IssueTypeSummary>)

  function IssueTypesOf(page: IssueTypesPage): (r: IssueTypesData)
    ensures r.total == page.total && r.startAt == page.startAt
    ensures r.maxResults == page.maxResults && r.isLast == page.isLast
    ensures |r.issueTypes| == |page.values|
    ensures forall i :: 0 <= i < |page.values| ==>
              r.issueTypes[i].id == page.values[i].id && r.issueTypes[i].name == page.values[i].name
              && r.issueTypes[i].subtask == page.values[i].subtask
              && r.issueTypes[i].description == page.values[i].description
              && r.issueTypes[i].iconUrl == page.values[i].iconUrl
  {
    IssueTypesData(page.total, page.startAt, page.maxResults, page.isLast,
      seq(|page.values|, i requires 0 <= i < |page.values| =>
        var t := page.values[i];
        IssueTypeSummary(t.id, t.name, t.description, t.subtask, t.iconUrl)))
  }

  function GetIssueTypes(client: JiraClient, input: IssueTypesInput, remote: Remote): (r: ToolResult<IssueTypesData>)
    ensures var reply := remote.issueTypes(client.GetIssueTypesForProjectRequest(
                           input.projectIdOrKey, PageOptions(Some(input.startAt), Some(input.maxResults))));
      (r.Success? <==> reply.Ok?) &&
      (reply.Ok? ==> r.data == IssueTypesOf(reply.payload)) &&
      (reply.Err? ==> r.error == HandleError(reply.error))
  {
    Handle(client.GetIssueTypesForProject(remote, input.projectIdOrKey,
                                          PageOptions(Some(input.startAt), Some(input.maxResults))),
           IssueTypesOf)
  }

  // ---------------------------------------------------------------------
  // jira_get_issue_type_fields

  datatype FieldEntry = FieldEntry(
    key: string,
    name: string,
    required: bool,
    schema: FieldSchema,
    hasDefaultValue: Option<bool>,
    operations: Option<seq<string>>,
    allowedValues: Option<seq<Json>>,
    autoCompleteUrl: Option<string>)

  datatype IssueTypeHeader = IssueTypeHeader(id: string, name: string, description: Option<string>, subtask: bool)

  datatype TypeFieldsData = TypeFieldsData(issueType: IssueTypeHeader, fields: seq<FieldEntry>, totalFields: int)

  function EntryOf(key: string, f: FieldMeta): FieldEntry {
    FieldEntry(key, f.name, f.required, f.schema, f.hasDefaultValue, f.operations, f.allowedValues, f.autoCompleteUrl)
  }

  /** The fields object as an array of entries, in object order; no fields
      object gives no entries. */
  function FieldsArray(fields: Option<seq<(string, FieldMeta)>>): (r: seq<FieldEntry>)
    ensures fields.None? ==> r == []
    ensures fields.Some? ==> |r| == |fields.value|
    ensures fields.Some? ==> forall i :: 0 <= i < |fields.value| ==>
              r[i].key == fields.value[i].0 && r[i].name == fields.value[i].1.name
              && r[i].required == fields.value[i].1.required && r[i].schema == fields.value[i].1.schema
              && r[i].hasDefaultValue == fields.value[i].1.hasDefaultValue
              && r[i].operations == fields.value[i].1.operations
              && r[i].allowedValues == fields.value[i].1.allowedValues
              && r[i].autoCompleteUrl == fields.value[i].1.autoCompleteUrl
  {
    match fields
    case None => []
    case Some(es) => seq(|es|, i requires 0 <= i < |es| => EntryOf(es[i].0, es[i].1))
  }

  function TypeFieldsOf(meta: IssueTypeMeta): (r: TypeFieldsData)
    ensures r.fields == FieldsArray(meta.fields)
    ensures r.totalFields == |r.fields|
    ensures r.issueType == IssueTypeHeader(meta.id, meta.name, meta.description, meta.subtask)
  {
    var fields := FieldsArray(meta.fields);
    TypeFieldsData(IssueTypeHeader(meta.id, meta.name, meta.description, meta.subtask), fields, |fields|)
  }

  function GetIssueTypeFields(client: JiraClient, input: TypeFieldsInput, remote: Remote): (r: ToolResult<TypeFieldsData>)
    ensures var reply := remote.issueType(client.GetIssueTypeFieldsRequest(
                           input.projectIdOrKey, input.issueTypeId, PageOptions(Some(input.startAt), Some(input.maxResults))));
      (r.Success? <==> reply.Ok?) &&
      (reply.Ok? ==> r.data == TypeFieldsOf(reply.payload)) &&
      (reply.Err? ==> r.error == HandleError(reply.error))
  {
    Handle(client.GetIssueTypeFields(remote, input.projectIdOrKey, input.issueTypeId,
                                     PageOptions(Some(input.startAt), Some(input.maxResults))),
           TypeFieldsOf)
  }

  // ---------------------------------------------------------------------
  // jira_get_issue_field_names

  /** One editable field; `fieldType` is the schema's `type`. */
  datatype FieldName = FieldName(fieldId: string, name: string, required: bool, fieldType: string, custom: bool)

  datatype FieldNamesData = FieldNamesData(issueKey: string, totalFields: int, fields: seq<FieldName>)

  function NameOf(f: FieldName): string {
    f.name
  }

  function FieldNameOf(id: string, f: EditMetaField): (r: FieldName)
    ensures r.custom <==> f.schema.custom.Some?
  {
    FieldName(id, f.name, f.required, f.schema.schemaType, f.schema.custom.Some?)
  }

  /** The edit-metadata fields in object order, before sorting. */
  function FieldNameList(entries: seq<(string, EditMetaField)>): (r: seq<FieldName>)
    ensures |r| == |entries|
    ensures forall i :: 0 <= i < |entries| ==> r[i] == FieldNameOf(entries[i].0, entries[i].1)
  {
    seq(|entries|, i requires 0 <= i < |entries| => FieldNameOf(entries[i].0, entries[i].1))
  }

  /** The result the field-names tool promises: every field once, sorted by name. */
  function FieldNamesOf(issueKey: string, meta: EditMeta): FieldNamesData {
    FieldNamesData(issueKey, |meta.fields|, StableSort(FieldNameList(meta.fields), NameOf))
  }

  lemma FieldNamesOfCorrect(issueKey: string, meta: EditMeta)
    ensures var d := FieldNamesOf(issueKey, meta);
      d.issueKey == issueKey &&
      d.totalFields == |d.fields| == |meta.fields| &&
      SortedBy(d.fields, NameOf) &&
      multiset(d.fields) == multiset(FieldNameList(meta.fields))
  {
    StableSortCorrect(FieldNameList(meta.fields), NameOf);
    StableSortLength(FieldNameList(meta.fields), NameOf);
  }

  /** Sorts field names into a fresh array and back. */
  method SortFieldNames(fields: seq<FieldName>) returns (sorted: seq<FieldName>)
    ensures sorted == StableSort(fields, NameOf)
  {
    var a := new FieldName[|fields|](i requires 0 <= i < |fields| => fields[i]);
    assert a[..] == fields;
    SortInPlace(a, NameOf);
    sorted := a[..];
  }

  method GetIssueFieldNames(client: JiraClient, input: FieldNamesInput, remote: Remote) returns (r: ToolResult<FieldNamesData>)
    ensures var reply := remote.editMeta(client.GetIssueEditMetaRequest(input.issueIdOrKey));
      (r.Success? <==> reply.Ok?) &&
      (reply.Ok? ==> r.data == FieldNamesOf(input.issueIdOrKey, reply.payload)) &&
      (reply.Err? ==> r.error == HandleError(reply.error))
  {
    var o := client.GetIssueEditMeta(remote, input.issueIdOrKey);
    match o
    case Raised(t) =>
      r := FailureOf(t);
    case Returned(meta) =>
      var fields := FieldNameList(meta.fields);
      var sorted := SortFieldNames(fields);
      r := Success(FieldNamesData(input.issueIdOrKey, |fields|, sorted));
  }

  // ---------------------------------------------------------------------
  // jira_search_issue_fields

  datatype FieldMatch = FieldMatch(
    fieldId: string, name: string, matchedTerm: string, required: bool, fieldType: string, custom: bool)

  datatype FieldSearchData = FieldSearchData(
    issueKey: string, searchTerms: seq<string>, totalMatches: int, matches: seq<FieldMatch>)

  function MatchName(m: FieldMatch): string {
    m.name
  }

  /** The lowercased field name contains the lowercased term. */
  predicate TermMatches(term: string, name: string) {
    Contains(ToLower(name), ToLower(term))
  }

  /** The first term, in the given order, that the name matches. */
  function FirstMatch(terms: seq<string>, name: string): Option<string>
    decreases |terms|
  {
    if terms == [] then None
    else if TermMatches(terms[0], name) then Some(terms[0])
    else FirstMatch(terms[1..], name)
  }

  function MatchOf(id: string, f: EditMetaField, term: string): (r: FieldMatch)
    ensures r.custom <==> f.schema.custom.Some?
  {
    FieldMatch(id, f.name, term, f.required, f.schema.schemaType, f.schema.custom.Some?)
  }

  /** The matches in object order, before sorting: one per field that matches
      some term, with its first matching term. */
  function MatchesOf(entries: seq<(string, EditMetaField)>, terms: seq<string>): seq<FieldMatch>
    decreases |entries|
  {
    if entries == [] then []
    else
      var last := entries[|entries| - 1];
      var rest := MatchesOf(entries[..|entries| - 1], terms);
      match FirstMatch(terms, last.1.name)
      case Some(t) => rest + [MatchOf(last.0, last.1, t)]
      case None => rest
  }

  /** The result the field-search tool promises. */
  function FieldSearchOf(issueKey: string, terms: seq<string>, meta: EditMeta): FieldSearchData {
    var matches := MatchesOf(meta.fields, terms);
    FieldSearchData(issueKey, terms, |matches|, StableSort(matches, MatchName))
  }

  /** The nested loop: for each field, the terms in order until one matches. */
  method CollectMatches(entries: seq<(string, EditMetaField)>, terms: seq<string>) returns (matched: seq<FieldMatch>)
    ensures matched == MatchesOf(entries, terms)
  {
    matched := [];
    var i := 0;
    while i < |entries|
      invariant 0 <= i <= |entries|
      invariant matched == MatchesOf(entries[..i], terms)
    {
      var (fieldId, field) := entries[i];
      var lowerFieldName := ToLower(field.name);
      var j := 0;
      while j < |terms|
        invariant 0 <= j <= |terms|
        invariant FirstMatch(terms[j..], field.name) == FirstMatch(terms, field.name)
        invariant matched == MatchesOf(entries[..i], terms)
      {
        var lowerSearchTerm := ToLower(terms[j]);
        if Contains(lowerFieldName, lowerSearchTerm) {
          matched := matched + [MatchOf(fieldId, field, terms[j])];
          break;
        }
        assert terms[j..][1..] == terms[j + 1..];
        j := j + 1;
      }
      assert entries[..i + 1][..i] == entries[..i];
      i := i + 1;
    }
    assert entries[..|entries|] == entries;
  }

  method SortMatches(matches: seq<FieldMatch>) returns (sorted: seq<FieldMatch>)
    ensures sorted == StableSort(matches, MatchName)
  {
    var a := new FieldMatch[|matches|](i requires 0 <= i < |matches| => matches[i]);
    assert a[..] == matches;
    SortInPlace(a, MatchName);
    sorted := a[..];
  }

  method SearchIssueFields(client: JiraClient, input: FieldSearchInput, remote: Remote) returns (r: ToolResult<FieldSearchData>)
    ensures var reply := remote.editMeta(client.GetIssueEditMetaRequest(input.issueIdOrKey));
      (r.Success? <==> reply.Ok?) &&
      (reply.Ok? ==> r.data == FieldSearchOf(input.issueIdOrKey, input.searchTerms, reply.payload)) &&
      (reply.Err? ==> r.error == HandleError(reply.error))
  {
    var o := client.GetIssueEditMeta(remote, input.issueIdOrKey);
    match o
    case Raised(t) =>
      r := FailureOf(t);
    case Returned(meta) =>
      var matched := CollectMatches(meta.fields, input.searchTerms);
      var total := |matched|;
      var sorted := SortMatches(matched);
      r := Success(FieldSearchData(input.issueIdOrKey, input.searchTerms, total, sorted));
  }

  // ---------------------------------------------------------------------
  // Properties of the field search

  /** `FirstMatch` finds a term exactly when one matches, and the term it
      finds is matched while no term before it is. */
  lemma {:induction false} FirstMatchIsFirst(terms: seq<string>, name: string)
    ensures FirstMatch(terms, name).Some? <==> exists k :: 0 <= k < |terms| && TermMatches(terms[k], name)
    ensures FirstMatch(terms, name).Some? ==>
              exists k :: 0 <= k < |terms| && terms[k] == FirstMatch(terms, name).value
                          && TermMatches(terms[k], name)
                          && forall k' :: 0 <= k' < k ==> !TermMatches(terms[k'], name)
    decreases |terms|
  {
    if terms != [] {
      FirstMatchIsFirst(terms[1..], name);
      if !TermMatches(terms[0], name) {
        if exists k :: 0 <= k < |terms| && TermMatches(terms[k], name) {
          var k :| 0 <= k < |terms| && TermMatches(terms[k], name);
          assert terms[1..][k - 1] == terms[k];
        }
        if FirstMatch(terms, name).Some? {
          var k :| 0 <= k < |terms[1..]| && terms[1..][k] == FirstMatch(terms, name).value
                   && TermMatches(terms[1..][k], name)
                   && forall k' :: 0 <= k' < k ==> !TermMatches(terms[1..][k'], name);
          assert terms[k + 1] == terms[1..][k];
          forall k' | 0 <= k' < k + 1 ensures !TermMatches(terms[k'], name) {
            if k' > 0 { assert terms[k'] == terms[1..][k' - 1]; }
          }
        }
      }
    }
  }

  /** Field `i` of the list matches some term and `m` records it with the
      first such term. */
  predicate MatchedAt(entries: seq<(string, EditMetaField)>, terms: seq<string>, i: int, m: FieldMatch) {
    0 <= i < |entries| && FirstMatch(terms, entries[i].1.name).Some? &&
    m == MatchOf(entries[i].0, entries[i].1, FirstMatch(terms, entries[i].1.name).value)
  }

  /** The unsorted matches are exactly the fields with a matching term, each
      recorded with its first matching term. */
  lemma {:induction false} MatchesOfMembers(entries: seq<(string, EditMetaField)>, terms: seq<string>, m: FieldMatch)
    ensures m in MatchesOf(entries, terms) <==> exists i :: MatchedAt(entries, terms, i, m)
    decreases |entries|
  {
    if entries != [] {
      var n := |entries| - 1;
      var init := entries[..n];
      MatchesOfMembers(init, terms, m);
      assert forall i :: 0 <= i < n ==> (MatchedAt(init, terms, i, m) <==> MatchedAt(entries, terms, i, m)) by {
        forall i | 0 <= i < n ensures init[i] == entries[i] { }
      }
      if m in MatchesOf(entries, terms) && m !in MatchesOf(init, terms) {
        assert MatchedAt(entries, terms, n, m);
      }
      if exists i :: MatchedAt(entries, terms, i, m) {
        var i :| MatchedAt(entries, terms, i, m);
        if i < n { assert MatchedAt(init, terms, i, m); }
      }
    }
  }

  /** Each matched field id comes from the field list, in order: the matches
      are at most as many as the fields and, when field ids are distinct, no
      field is recorded twice. */
  lemma {:induction false} MatchesOfOnce(entries: seq<(string, EditMetaField)>, terms: seq<string>)
    requires DistinctKeys(entries)
    ensures |MatchesOf(entries, terms)| <= |entries|
    ensures forall a, b :: 0 <= a < b < |MatchesOf(entries, terms)| ==>
              MatchesOf(entries, terms)[a].fieldId != MatchesOf(entries, terms)[b].fieldId
    decreases |entries|
  {
    if entries != [] {
      var n := |entries| - 1;
      var init := entries[..n];
      assert DistinctKeys(init) by {
        forall i, j | 0 <= i < j < |init| ensures init[i].0 != init[j].0 {
          assert init[i] == entries[i] && init[j] == entries[j];
        }
      }
      MatchesOfOnce(init, terms);
      var rest := MatchesOf(init, terms);
      if FirstMatch(terms, entries[n].1.name).Some? {
        forall a | 0 <= a < |rest| ensures rest[a].fieldId != entries[n].0 {
          MatchesOfMembers(init, terms, rest[a]);
          assert rest[a] in rest;
          var i :| MatchedAt(init, terms, i, rest[a]);
          assert init[i] == entries[i];
        }
      }
    }
  }

  /** The search result: the terms echoed, the count of matches, the
      matches sorted by name and, as a collection, exactly the unsorted ones. */
  lemma FieldSearchOfCorrect(issueKey: string, terms: seq<string>, meta: EditMeta)
    ensures var d := FieldSearchOf(issueKey, terms, meta);
      d.issueKey == issueKey && d.searchTerms == terms &&
      d.totalMatches == |d.matches| &&
      SortedBy(d.matches, MatchName) &&
      multiset(d.matches) == multiset(MatchesOf(meta.fields, terms))
  {
    StableSortCorrect(MatchesOf(meta.fields, terms), MatchName);
    StableSortLength(MatchesOf(meta.fields, terms), MatchName);
  }

  /** A field is listed in the search result exactly when some term matches
      its name, and then with the first such term. */
  lemma FieldSearchMembers(issueKey: string, terms: seq<string>, meta: EditMeta, m: FieldMatch)
    ensures m in FieldSearchOf(issueKey, terms, meta).matches <==> exists i :: MatchedAt(meta.fields, terms, i, m)
  {
    FieldSearchOfCorrect(issueKey, terms, meta);
    MatchesOfMembers(meta.fields, terms, m);
    assert m in FieldSearchOf(issueKey, terms, meta).matches <==> m in multiset(FieldSearchOf(issueKey, terms, meta).matches);
  }

  /** The match ignores case: lowering a term first changes nothing. */
  lemma {:induction false} TermMatchIgnoresCase(term: string, name: string)
    ensures TermMatches(ToLower(term), name) == TermMatches(term, name)
    ensures TermMatches(term, ToLower(name)) == TermMatches(term, name)
  {
    ToLowerIdempotent(term);
    ToLowerIdempotent(name);
  }

  /** An empty search term matches every field. */
  lemma EmptyTermMatchesAll(terms: seq<string>, name: string)
    requires "" in terms
    ensures FirstMatch(terms, name).Some?
  {
    var k :| 0 <= k < |terms| && terms[k] == "";
    assert ToLower(terms[k]) == "";
    EmptyIsContained(ToLower(name));
    FirstMatchIsFirst(terms, name);
  }
}
