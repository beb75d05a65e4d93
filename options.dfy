/**
 * The service's configuration and `validateOptions`. Each field has the type
 * the `userOptions` interface declares; `None` is a missing (undefined)
 * property. An absent options object behaves like one with every field missing.
 */
module Options {
  import opened Wrappers

  datatype UserOptions = UserOptions(
    email: Option<string>,
    apiKey: Option<string>,
    testRunName: Option<string>,
    description: Option<string>,
    projectId: Option<int>,
    includeAllCases: Option<bool>)

  /** The required fields, in the order in which `validateOptions` checks them. */
  datatype Field = ApiKey | TestRunName | Description | ProjectId | IncludeAllCases

  const RequiredFields: seq<Field> := [ApiKey, TestRunName, Description, ProjectId, IncludeAllCases]

  datatype Validation = Accepted | Missing(field: Field)

  function Position(f: Field): (k: nat)
    ensures k < |RequiredFields| && RequiredFields[k] == f
  {
    match f
    case ApiKey => 0
    case TestRunName => 1
    case Description => 2
    case ProjectId => 3
    case IncludeAllCases => 4
  }

  /** JavaScript truthiness: a missing value, "", 0 and false are falsy. */
  predicate TruthyString(v: Option<string>) { v.Some? && v.value != "" }
  predicate TruthyNumber(v: Option<int>) { v.Some? && v.value != 0 }
  predicate TruthyBool(v: Option<bool>) { v.Some? && v.value }

  predicate Truthy(o: UserOptions, f: Field) {
    match f
    case ApiKey => TruthyString(o.apiKey)
    case TestRunName => TruthyString(o.testRunName)
    case Description => TruthyString(o.description)
    case ProjectId => TruthyNumber(o.projectId)
    case IncludeAllCases => TruthyBool(o.includeAllCases)
  }

  /**
   * `validateOptions`: accepts exactly when all five required fields are
   * truthy, and otherwise reports the first falsy one in checking order.
   */
  function ValidateOptions(o: UserOptions): (r: Validation)
    ensures r.Missing? ==> !Truthy(o, RequiredFields[Position(r.field)])
    ensures r.Accepted? <==> forall k :: 0 <= k < |RequiredFields| ==> Truthy(o, RequiredFields[k])
    ensures r.Missing? ==> forall k :: 0 <= k < Position(r.field) ==> Truthy(o, RequiredFields[k])
  {
    if !TruthyString(o.apiKey) then Missing(ApiKey)
    else if !TruthyString(o.testRunName) then Missing(TestRunName)
    else if !TruthyString(o.description) then Missing(Description)
    else if !TruthyNumber(o.projectId) then Missing(ProjectId)
    else if !TruthyBool(o.includeAllCases) then Missing(IncludeAllCases)
    else Accepted
  }

  function FieldName(f: Field): string {
    match f
    case ApiKey => "apiKey"
    case TestRunName => "testRunName"
    case Description => "description"
    case ProjectId => "projectId"
    case IncludeAllCases => "includeAllCases"
  }

  function TypeName(f: Field): string {
    match f
    case ApiKey => "string"
    case TestRunName => "string"
    case Description => "string"
    case ProjectId => "number"
    case IncludeAllCases => "boolean"
  }

  /** The text of the SevereServiceError that `validateOptions` throws. */
  function MissingPropertyMessage(f: Field): string {
    "Missing property for QualityWatcherService: '" + FieldName(f) + "' [" + TypeName(f) + "]"
  }

  /** Different missing fields give different error texts, so the text names the field. */
  lemma MissingPropertyMessageNamesField(f: Field, g: Field)
    requires MissingPropertyMessage(f) == MissingPropertyMessage(g)
    ensures f == g
  {
    var prefix := "Missing property for QualityWatcherService: '";
    var m := MissingPropertyMessage(f);
    assert m[|prefix|] == FieldName(f)[0];
    assert MissingPropertyMessage(g)[|prefix|] == FieldName(g)[0];
  }

  /**
   * Validation is by truthiness, not by type: every accepted configuration has
   * `includeAllCases` set to true and a non-zero `projectId`.
   */
  lemma AcceptedOptionsIncludeAllCases(o: UserOptions)
    requires ValidateOptions(o).Accepted?
    ensures o.includeAllCases == Some(true)
    ensures o.projectId.Some? && o.projectId.value != 0
    ensures o.apiKey.Some? && o.testRunName.Some? && o.description.Some?
  {
    assert Truthy(o, RequiredFields[3]);
    assert Truthy(o, RequiredFields[4]);
  }

  /** `includeAllCases: false` is reported as missing even when every other field is set. */
  lemma IncludeAllCasesFalseRejected(o: UserOptions)
    requires TruthyString(o.apiKey) && TruthyString(o.testRunName) && TruthyString(o.description)
    requires TruthyNumber(o.projectId)
    requires o.includeAllCases == Some(false)
    ensures ValidateOptions(o) == Missing(IncludeAllCases)
  {
  }
}
