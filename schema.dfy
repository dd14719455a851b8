/** Tool argument schemas. Each tool's `z.object({...})` is written out as a
    list of field specifications (name, kind, and whether the field is
    required, optional, or defaulted), and the two things the server derives
    from a schema are defined on that one description: `Validate`, what
    `inputSchema.parse` does with the raw arguments of a call, and
    `RequiredFields`, the `required` list the tool descriptor advertises. */
module Schema {
  import opened Text
  import opened Json
  import opened Results

  /** The value kinds the tool schemas use. */
  datatype Kind =
    | StringKind
    | NumberKind
    | BoolKind
    | StringArrayKind
    | EnumKind(options: seq<string>)

  /** A validated argument value. */
  datatype Arg = StrArg(s: string) | NumArg(n: int) | BoolArg(b: bool) | StrsArg(items: seq<string>)

  /** A bare schema, `.optional()`, or `.optional().default(v)`. */
  datatype Presence = Required | Optional | Default(value: Arg)

  datatype FieldSpec = FieldSpec(name: string, kind: Kind, presence: Presence)

  /** The fields of one `z.object`, in declaration order. */
  type ObjectSchema = seq<FieldSpec>

  datatype PathSegment = Key(key: string) | Index(index: nat)

  /** One entry of a validation error's issue list: where, and what. */
  datatype ValidationIssue = ValidationIssue(path: seq<PathSegment>, message: string)

  /** Validated arguments, by field name. */
  type Args = map<string, Arg>

  datatype Validation = Accepted(args: Args) | Rejected(issues: seq<ValidationIssue>)

  // ---------------------------------------------------------------------
  // What a schema means

  predicate ArgConforms(kind: Kind, a: Arg) {
    match kind
    case StringKind => a.StrArg?
    case NumberKind => a.NumArg?
    case BoolKind => a.BoolArg?
    case StringArrayKind => a.StrsArg?
    case EnumKind(options) => a.StrArg? && a.s in options
  }

  /** A raw argument value the kind accepts. */
  predicate JsonConforms(kind: Kind, j: Json) {
    match kind
    case StringKind => j.JString?
    case NumberKind => j.JNumber?
    case BoolKind => j.JBool?
    case StringArrayKind => j.JArray? && forall i :: 0 <= i < |j.items| ==> j.items[i].JString?
    case EnumKind(options) => j.JString? && j.s in options
  }

  /** A validated value as the raw value it came from. */
  function ToJson(a: Arg): Json {
    match a
    case StrArg(s) => JString(s)
    case NumArg(n) => JNumber(n)
    case BoolArg(b) => JBool(b)
    case StrsArg(items) => JArray(seq(|items|, i requires 0 <= i < |items| => JString(items[i])))
  }

  function NameSet(schema: ObjectSchema): set<string> {
    set i | 0 <= i < |schema| :: schema[i].name
  }

  predicate DistinctNames(schema: ObjectSchema) {
    forall i, j :: 0 <= i < j < |schema| ==> schema[i].name != schema[j].name
  }

  /** Names are distinct and every default value has its field's kind. */
  predicate WellFormed(schema: ObjectSchema) {
    DistinctNames(schema) &&
    forall i :: 0 <= i < |schema| && schema[i].presence.Default? ==>
      ArgConforms(schema[i].kind, schema[i].presence.value)
  }

  /** One field of validated arguments: present with its kind unless optional. */
  predicate FieldConforms(spec: FieldSpec, args: Args) {
    match spec.presence
    case Optional => spec.name in args ==> ArgConforms(spec.kind, args[spec.name])
    case _ => spec.name in args && ArgConforms(spec.kind, args[spec.name])
  }

  /** The arguments a handler may be given: only schema fields, each conforming. */
  predicate Conforms(schema: ObjectSchema, args: Args) {
    args.Keys <= NameSet(schema) &&
    forall i :: 0 <= i < |schema| ==> FieldConforms(schema[i], args)
  }

  /** Raw arguments the schema accepts: every required field is there and
      every field that is there has its kind. */
  predicate RawConforms(schema: ObjectSchema, raw: map<string, Json>) {
    forall i :: 0 <= i < |schema| ==>
      (schema[i].presence.Required? ==> schema[i].name in raw) &&
      (schema[i].name in raw ==> JsonConforms(schema[i].kind, raw[schema[i].name]))
  }

  // ---------------------------------------------------------------------
  // Validation

  /** The type name a validation message reports for a received value. */
  function TypeName(j: Json): string {
    match j
    case JNull => "null"
    case JBool(_) => "boolean"
    case JNumber(_) => "number"
    case JString(_) => "string"
    case JArray(_) => "array"
    case JObject(_) => "object"
  }

  /** The options of an enum as a message lists them: `'a' | 'b'`. */
  function EnumList(options: seq<string>): string {
    Join(seq(|options|, i requires 0 <= i < |options| => "'" + options[i] + "'"), " | ")
  }

  function Mismatch(path: seq<PathSegment>, expected: string, j: Json): ValidationIssue {
    ValidationIssue(path, "Expected " + expected + ", received " + TypeName(j))
  }

  /** The issues of the elements of a string array that are not strings;
      `first` is the index of `items[0]` in the whole array. */
  function ElementIssues(name: string, items: seq<Json>, first: nat): (r: seq<ValidationIssue>)
    ensures r == [] <==> forall i :: 0 <= i < |items| ==> items[i].JString?
    ensures |r| <= |items|
    decreases |items|
  {
    if items == [] then []
    else
      (if items[0].JString? then [] else [Mismatch([Key(name), Index(first)], "string", items[0])])
      + ElementIssues(name, items[1..], first + 1)
  }

  datatype FieldOutcome = Present(arg: Arg) | Absent | Bad(issues: seq<ValidationIssue>)

  /** Checks a value that is there. */
  function CheckValue(name: string, kind: Kind, j: Json): (r: FieldOutcome)
    ensures !r.Absent?
    ensures r.Present? <==> JsonConforms(kind, j)
    ensures r.Present? ==> ArgConforms(kind, r.arg) && ToJson(r.arg) == j
    ensures r.Bad? ==> r.issues != []
  {
    var path := [Key(name)];
    match kind
    case StringKind => if j.JString? then Present(StrArg(j.s)) else Bad([Mismatch(path, "string", j)])
    case NumberKind => if j.JNumber? then Present(NumArg(j.n)) else Bad([Mismatch(path, "number", j)])
    case BoolKind => if j.JBool? then Present(BoolArg(j.b)) else Bad([Mismatch(path, "boolean", j)])
    case StringArrayKind =>
      if !j.JArray? then Bad([Mismatch(path, "array", j)])
      else
        var issues := ElementIssues(name, j.items, 0);
        if issues != [] then Bad(issues)
        else
          var strings := seq(|j.items|, i requires 0 <= i < |j.items| => j.items[i].s);
          assert ToJson(StrsArg(strings)).items == j.items;
          Present(StrsArg(strings))
    case EnumKind(options) =>
      if !j.JString? then Bad([Mismatch(path, EnumList(options), j)])
      else if j.s in options then Present(StrArg(j.s))
      else Bad([ValidationIssue(path, "Invalid enum value. Expected " + EnumList(options) + ", received '" + j.s + "'")])
  }

  /** Checks one field of the raw arguments. */
  function CheckField(spec: FieldSpec, raw: map<string, Json>): FieldOutcome {
    if spec.name in raw then CheckValue(spec.name, spec.kind, raw[spec.name])
    else match spec.presence
      case Required => Bad([ValidationIssue([Key(spec.name)], "Required")])
      case Optional => Absent
      case Default(v) => Present(v)
  }

  function IssuesOf(o: FieldOutcome): seq<ValidationIssue> {
    if o.Bad? then o.issues else []
  }

  /** All issues, field by field in schema order. */
  function Issues(schema: ObjectSchema, raw: map<string, Json>): seq<ValidationIssue>
    decreases |schema|
  {
    if schema == [] then [] else IssuesOf(CheckField(schema[0], raw)) + Issues(schema[1..], raw)
  }

  /** The validated value of every field that has one; other keys are dropped. */
  function Collect(schema: ObjectSchema, raw: map<string, Json>): Args
    decreases |schema|
  {
    if schema == [] then map[]
    else
      var rest := Collect(schema[1..], raw);
      match CheckField(schema[0], raw)
      case Present(a) => rest[schema[0].name := a]
      case _ => rest
  }

  /** `inputSchema.parse(args)`: the arguments of a call are `undefined` or
      an object. */
  function Validate(schema: ObjectSchema, raw: Option<map<string, Json>>): (r: Validation)
    ensures raw.None? ==> r == Rejected([ValidationIssue([], "Required")])
    ensures r.Rejected? ==> r.issues != []
  {
    match raw
    case None => Rejected([ValidationIssue([], "Required")])
    case Some(m) =>
      var issues := Issues(schema, m);
      if issues == [] then Accepted(Collect(schema, m)) else Rejected(issues)
  }

  /** The `required` list of a tool descriptor: the fields that are neither
      optional nor defaulted, in declaration order. */
  function RequiredFields(schema: ObjectSchema): seq<string>
    decreases |schema|
  {
    if schema == [] then []
    else (if schema[0].presence.Required? then [schema[0].name] else []) + RequiredFields(schema[1..])
  }

  // ---------------------------------------------------------------------
  // Reading validated arguments

  /** The value of an optional string-array field, if given. */
  function OptStrs(args: Args, name: string): Option<seq<string>> {
    if name in args && args[name].StrsArg? then Some(args[name].items) else None
  }

  function OptStr(args: Args, name: string): Option<string> {
    if name in args && args[name].StrArg? then Some(args[name].s) else None
  }

  function OptNum(args: Args, name: string): Option<int> {
    if name in args && args[name].NumArg? then Some(args[name].n) else None
  }

  function OptBool(args: Args, name: string): Option<bool> {
    if name in args && args[name].BoolArg? then Some(args[name].b) else None
  }

  // ---------------------------------------------------------------------
  // Properties

  lemma {:induction false} CheckFieldOk(spec: FieldSpec, raw: map<string, Json>)
    ensures !CheckField(spec, raw).Bad? <==>
              (spec.presence.Required? ==> spec.name in raw) &&
              (spec.name in raw ==> JsonConforms(spec.kind, raw[spec.name]))
  {
  }

  /** Validation accepts exactly the raw arguments the schema describes. */
  lemma {:induction false} ValidateAcceptsIff(schema: ObjectSchema, raw: map<string, Json>)
    ensures Validate(schema, Some(raw)).Accepted? <==> RawConforms(schema, raw)
    decreases |schema|
  {
    if schema != [] {
      ValidateAcceptsIff(schema[1..], raw);
      CheckFieldOk(schema[0], raw);
      assert Issues(schema, raw) == IssuesOf(CheckField(schema[0], raw)) + Issues(schema[1..], raw);
      if RawConforms(schema, raw) {
        forall i | 0 <= i < |schema[1..]|
          ensures (schema[1..][i].presence.Required? ==> schema[1..][i].name in raw) &&
                  (schema[1..][i].name in raw ==> JsonConforms(schema[1..][i].kind, raw[schema[1..][i].name]))
        {
          assert schema[1..][i] == schema[i + 1];
        }
      } else if Issues(schema, raw) == [] {
        assert RawConforms(schema[1..], raw);
        var i :| 0 <= i < |schema| && !(
          (schema[i].presence.Required? ==> schema[i].name in raw) &&
          (schema[i].name in raw ==> JsonConforms(schema[i].kind, raw[schema[i].name])));
      }
    }
  }

  /** The keys and values of collected arguments: a field that is there keeps
      the caller's value, an absent defaulted field gets its default, and an
      absent optional field stays absent. */
  lemma {:induction false} CollectValues(schema: ObjectSchema, raw: map<string, Json>)
    requires DistinctNames(schema)
    requires Issues(schema, raw) == []
    ensures Collect(schema, raw).Keys <= NameSet(schema)
    ensures forall i :: 0 <= i < |schema| ==>
      var args := Collect(schema, raw);
      var spec := schema[i];
      (spec.name in raw ==> spec.name in args && ToJson(args[spec.name]) == raw[spec.name]
                              && ArgConforms(spec.kind, args[spec.name])) &&
      (spec.name !in raw && spec.presence.Default? ==> spec.name in args && args[spec.name] == spec.presence.value) &&
      (spec.name !in raw && spec.presence.Optional? ==> spec.name !in args) &&
      (spec.name !in raw ==> !spec.presence.Required?)
    decreases |schema|
  {
    if schema != [] {
      var rest := schema[1..];
      assert DistinctNames(rest) by {
        forall i, j | 0 <= i < j < |rest| ensures rest[i].name != rest[j].name {
          assert rest[i] == schema[i + 1] && rest[j] == schema[j + 1];
        }
      }
      assert IssuesOf(CheckField(schema[0], raw)) == [] && Issues(rest, raw) == [];
      CollectValues(rest, raw);
      var args := Collect(schema, raw);
      var restArgs := Collect(rest, raw);
      assert NameSet(schema) == {schema[0].name} + NameSet(rest) by {
        forall n | n in NameSet(schema) ensures n in {schema[0].name} + NameSet(rest) {
          var i :| 0 <= i < |schema| && schema[i].name == n;
          if i > 0 { assert rest[i - 1] == schema[i]; }
        }
        forall n | n in NameSet(rest) ensures n in NameSet(schema) {
          var i :| 0 <= i < |rest| && rest[i].name == n;
          assert schema[i + 1] == rest[i];
        }
      }
      assert schema[0].name !in NameSet(rest) by {
        forall i | 0 <= i < |rest| ensures rest[i].name != schema[0].name {
          assert rest[i] == schema[i + 1];
        }
      }
      forall i | 0 <= i < |schema|
        ensures var spec := schema[i];
          (spec.name in raw ==> spec.name in args && ToJson(args[spec.name]) == raw[spec.name]
                                  && ArgConforms(spec.kind, args[spec.name])) &&
          (spec.name !in raw && spec.presence.Default? ==> spec.name in args && args[spec.name] == spec.presence.value) &&
          (spec.name !in raw && spec.presence.Optional? ==> spec.name !in args) &&
          (spec.name !in raw ==> !spec.presence.Required?)
      {
        if i > 0 {
          assert schema[i] == rest[i - 1];
          assert schema[i].name in NameSet(rest);
          assert schema[i].name != schema[0].name;
        }
      }
    }
  }

  /** The validated value of field `i` of accepted arguments. */
  lemma AcceptedValue(schema: ObjectSchema, raw: map<string, Json>, i: nat)
    requires DistinctNames(schema) && i < |schema|
    requires Validate(schema, Some(raw)).Accepted?
    ensures var args := Validate(schema, Some(raw)).args;
      var spec := schema[i];
      (spec.name in raw ==> spec.name in args && ToJson(args[spec.name]) == raw[spec.name]) &&
      (spec.name !in raw && spec.presence.Default? ==> spec.name in args && args[spec.name] == spec.presence.value)
  {
    CollectValues(schema, raw);
  }

  /** Accepted arguments conform to a well-formed schema, so a handler is only
      ever given arguments of the shape it declares. */
  lemma AcceptedConforms(schema: ObjectSchema, raw: map<string, Json>)
    requires WellFormed(schema)
    ensures Validate(schema, Some(raw)).Accepted? ==> Conforms(schema, Validate(schema, Some(raw)).args)
  {
    if Validate(schema, Some(raw)).Accepted? {
      CollectValues(schema, raw);
    }
  }

  /** A required field that is not in the arguments is reported at its own
      path with the message `Required`, and the call is rejected. */
  lemma {:induction false} MissingRequiredReported(schema: ObjectSchema, raw: map<string, Json>, i: nat)
    requires i < |schema| && schema[i].presence.Required? && schema[i].name !in raw
    ensures ValidationIssue([Key(schema[i].name)], "Required") in Issues(schema, raw)
    ensures Validate(schema, Some(raw)).Rejected?
    decreases i
  {
    if i > 0 {
      assert schema[i] == schema[1..][i - 1];
      MissingRequiredReported(schema[1..], raw, i - 1);
    }
  }

  /** Every issue CheckValue reports names the field and something other than
      `Required`. */
  lemma {:induction false} ElementIssuesShape(name: string, items: seq<Json>, first: nat)
    ensures forall v :: v in ElementIssues(name, items, first) ==>
              |v.path| == 2 && v.path[0] == Key(name) && v.message != "Required"
    decreases |items|
  {
    if items != [] {
      ElementIssuesShape(name, items[1..], first + 1);
      assert "Expected string, received " + TypeName(items[0]) != "Required" by {
        assert ("Expected string, received " + TypeName(items[0]))[0] == 'E';
      }
    }
  }

  lemma ValueIssuesNotRequired(name: string, kind: Kind, j: Json)
    ensures forall v :: v in IssuesOf(CheckValue(name, kind, j)) ==> v.message != "Required"
  {
    forall v | v in IssuesOf(CheckValue(name, kind, j)) ensures v.message != "Required" {
      if kind.StringArrayKind? && j.JArray? {
        ElementIssuesShape(name, j.items, 0);
      } else {
        assert v.message[0] in {'E', 'I'};
      }
    }
  }

  /** Conversely, an issue `Required` at a field's path means that field is
      required and was not given. */
  lemma {:induction false} RequiredIssueMeansMissing(schema: ObjectSchema, raw: map<string, Json>, name: string)
    requires ValidationIssue([Key(name)], "Required") in Issues(schema, raw)
    ensures exists i :: 0 <= i < |schema| && schema[i].name == name
                          && schema[i].presence.Required? && name !in raw
    decreases |schema|
  {
    var issue := ValidationIssue([Key(name)], "Required");
    var here := IssuesOf(CheckField(schema[0], raw));
    if issue in here {
      if schema[0].name in raw {
        ValueIssuesNotRequired(schema[0].name, schema[0].kind, raw[schema[0].name]);
      }
      assert schema[0].name == name;
    } else {
      RequiredIssueMeansMissing(schema[1..], raw, name);
      var i :| 0 <= i < |schema[1..]| && schema[1..][i].name == name
                 && schema[1..][i].presence.Required? && name !in raw;
      assert schema[i + 1] == schema[1..][i];
    }
  }

  /** The advertised `required` list names exactly the required fields. */
  lemma {:induction false} RequiredFieldsExact(schema: ObjectSchema, name: string)
    ensures name in RequiredFields(schema) <==>
              exists i :: 0 <= i < |schema| && schema[i].name == name && schema[i].presence.Required?
    decreases |schema|
  {
    if schema != [] {
      RequiredFieldsExact(schema[1..], name);
      if exists i :: 0 <= i < |schema| && schema[i].name == name && schema[i].presence.Required? {
        var i :| 0 <= i < |schema| && schema[i].name == name && schema[i].presence.Required?;
        if i > 0 { assert schema[1..][i - 1] == schema[i]; }
      }
      if exists i :: 0 <= i < |schema[1..]| && schema[1..][i].name == name && schema[1..][i].presence.Required? {
        var i :| 0 <= i < |schema[1..]| && schema[1..][i].name == name && schema[1..][i].presence.Required?;
        assert schema[i + 1] == schema[1..][i];
      }
    }
  }

  /** Leaving out a field that is not in the `required` list never turns
      accepted arguments into rejected ones. */
  lemma OmittingUnrequiredKeepsAccepted(schema: ObjectSchema, raw: map<string, Json>, name: string)
    requires DistinctNames(schema)
    requires name !in RequiredFields(schema)
    requires Validate(schema, Some(raw)).Accepted?
    ensures Validate(schema, Some(raw - {name})).Accepted?
  {
    ValidateAcceptsIff(schema, raw);
    ValidateAcceptsIff(schema, raw - {name});
    RequiredFieldsExact(schema, name);
    forall i | 0 <= i < |schema|
      ensures (schema[i].presence.Required? ==> schema[i].name in raw - {name}) &&
              (schema[i].name in raw - {name} ==> JsonConforms(schema[i].kind, (raw - {name})[schema[i].name]))
    {
    }
  }
}
