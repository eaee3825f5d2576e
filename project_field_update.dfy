/** Setting a single-select field of a project item from an issue label
    `"<Field>:<Option>"`, for a project named `"<organisation>/<number>"`.
    The GraphQL mutation is modelled by the record it would carry; the call
    itself, its response and the random client mutation id are not. */
module ProjectFieldUpdate {
  import opened Wrappers
  import opened Strings
  import opened Resources

  /** JavaScript's `Number(text)`, abstracted to a partial function: `None`
      where the result could never be a key of the project table (`NaN`,
      fractions). */
  type NumberParser = string -> Option<int>

  /** The number written after the first `/`; `None` when there is no second
      segment (JavaScript's `Number(undefined)` is `NaN`). */
  function ProjectNumber(project: string, parse: NumberParser): Option<int> {
    var parts := Split(project, '/');
    if |parts| < 2 then None else parse(parts[1])
  }

  /** `resource.organizations.get(org)?.projects.get(number)`. */
  function LookupProject(resource: Resource, project: string, parse: NumberParser): Option<Project> {
    var org := Split(project, '/')[0];
    match ProjectNumber(project, parse)
    case None => None
    case Some(n) =>
      if org in resource.organizations && n in resource.organizations[org].projects
      then Some(resource.organizations[org].projects[n])
      else None
  }

  /** `validateProject`: whether the project string names a project of the table. */
  function ValidateProject(resource: Resource, project: string, parse: NumberParser): bool {
    LookupProject(resource, project, parse).Some?
  }

  /** Table membership stated without any string splitting. */
  predicate Listed(resource: Resource, org: string, number: Option<int>) {
    number.Some? && org in resource.organizations && number.value in resource.organizations[org].projects
  }

  /** For `"<org>/<number>"`, with or without further `/`-segments, the lookup
      yields exactly the table entry of `org` and the parsed number, and
      validation succeeds iff that entry exists. */
  lemma ValidateProjectIff(resource: Resource, org: string, numText: string, rest: string, parse: NumberParser)
    requires '/' !in org && '/' !in numText
    ensures ValidateProject(resource, org + "/" + numText, parse) <==> Listed(resource, org, parse(numText))
    ensures ValidateProject(resource, org + "/" + numText + "/" + rest, parse) <==> Listed(resource, org, parse(numText))
    ensures LookupProject(resource, org + "/" + numText, parse)
         == if Listed(resource, org, parse(numText))
            then Some(resource.organizations[org].projects[parse(numText).value]) else None
  {
    SplitWithoutSeparator(numText, '/');
    SplitAfterFirst(org, numText, '/');
    assert org + "/" + numText + "/" + rest == org + ['/'] + (numText + ['/'] + rest);
    SplitAfterFirst(org, numText + ['/'] + rest, '/');
    SplitAfterFirst(numText, rest, '/');
  }

  /** A project string without `/` never validates: its number is undefined. */
  lemma ValidateProjectNeedsSlash(resource: Resource, project: string, parse: NumberParser)
    requires '/' !in project
    ensures !ValidateProject(resource, project, parse)
  {
  }

  /** The precondition checks, in the order they run. */
  datatype Check = ResourceConfigValid | ProjectDefined | LabelPresent | ItemIdPresent | LabelMethod

  const Checks: seq<Check> := [ResourceConfigValid, ProjectDefined, LabelPresent, ItemIdPresent, LabelMethod]

  function Position(c: Check): (k: nat)
    ensures k < |Checks| && Checks[k] == c
  {
    match c
    case ResourceConfigValid => 0
    case ProjectDefined => 1
    case LabelPresent => 2
    case ItemIdPresent => 3
    case LabelMethod => 4
  }

  /** The label of the triggering event (`context.payload.label`). */
  datatype Label = Label(name: string)

  /** The call's static arguments; `updateMethod` is the source's `method`. */
  datatype Params = Params(itemId: string, updateMethod: string, project: string)

  /** Everything one invocation depends on. `resourceValid` is the verdict of
      the resource-config validator, which is not part of this model. */
  datatype Invocation = Invocation(
    resourceValid: bool,
    resource: Resource,
    payloadLabel: Option<Label>,
    params: Params,
    parse: NumberParser)

  predicate Passes(c: Check, inv: Invocation) {
    match c
    case ResourceConfigValid => inv.resourceValid
    case ProjectDefined => ValidateProject(inv.resource, inv.params.project, inv.parse)
    case LabelPresent => inv.payloadLabel.Some?
    case ItemIdPresent => inv.params.itemId != ""
    case LabelMethod => inv.params.updateMethod == "label"
  }

  /** The first check that fails, if any; every check before it passed. */
  function Precheck(inv: Invocation): (r: Option<Check>)
    ensures r.None? <==> forall i | 0 <= i < |Checks| :: Passes(Checks[i], inv)
    ensures r.Some? ==> !Passes(r.value, inv) && forall i | 0 <= i < Position(r.value) :: Passes(Checks[i], inv)
  {
    var first :=
      if !inv.resourceValid then Some(ResourceConfigValid)
      else if !ValidateProject(inv.resource, inv.params.project, inv.parse) then Some(ProjectDefined)
      else if inv.payloadLabel.None? then Some(LabelPresent)
      else if inv.params.itemId == "" then Some(ItemIdPresent)
      else if inv.params.updateMethod != "label" then Some(LabelMethod)
      else None;
    assert first.Some? ==> !Passes(Checks[Position(first.value)], inv);
    first
  }

  /** The update the GraphQL mutation asks for; the client mutation id is random
      and left out. */
  datatype Mutation = Mutation(projectId: string, itemId: string, fieldId: string, optionId: string)

  /** The messages written to the application log, in order. */
  datatype LogEntry =
    | Rejected(check: Check)   // the error message of a failed check
    | AttemptUpdate
    | ApiResponse
    | NoMatchFound
    | CaughtError

  /** What a failed check logs; the resource-config validator logs on its own. */
  function RejectionLog(c: Check): seq<LogEntry> {
    if c == ResourceConfigValid then [] else [Rejected(c)]
  }

  /** Whether `option` is the one the label's second `:`-segment names; an
      undefined segment matches nothing. */
  predicate Names(option: FieldOption, name: Option<string>) {
    name == Some(option.name)
  }

  predicate IsFirstMatch(options: seq<FieldOption>, name: Option<string>, i: nat) {
    i < |options| && Names(options[i], name) && forall j | 0 <= j < i :: !Names(options[j], name)
  }

  /** The option a scan in list order stops at. */
  function FirstMatch(options: seq<FieldOption>, name: Option<string>): (r: Option<nat>)
    ensures r.Some? ==> IsFirstMatch(options, name, r.value)
    ensures r.None? ==> forall j | 0 <= j < |options| :: !Names(options[j], name)
  {
    if options == [] then None
    else if Names(options[0], name) then Some(0)
    else
      match FirstMatch(options[1..], name)
      case None => None
      case Some(i) => Some(i + 1)
  }

  /** The second `:`-segment of the label, if it has one. */
  function OptionName(l: Label): Option<string> {
    Segment(Split(l.name, ':'), 1)
  }

  /** The project field named by the label's first `:`-segment. */
  function TargetField(inv: Invocation): Option<Field> {
    match (LookupProject(inv.resource, inv.params.project, inv.parse), inv.payloadLabel)
    case (Some(project), Some(l)) =>
      var fieldName := Split(l.name, ':')[0];
      if fieldName in project.fields then Some(project.fields[fieldName]) else None
    case _ => None
  }

  /** The mutation one invocation issues, if any. */
  function Planned(inv: Invocation): (r: Option<Mutation>)
    ensures r.Some? ==> Precheck(inv).None?
    ensures r.Some? ==> TargetField(inv).Some? && TargetField(inv).value.fieldType == SingleSelect
    ensures r.Some? ==> r.value.itemId == inv.params.itemId
  {
    if Precheck(inv).Some? then None
    else
      match TargetField(inv)
      case None => None
      case Some(field) =>
        if field.fieldType != SingleSelect then None
        else
          match FirstMatch(field.options, OptionName(inv.payloadLabel.value))
          case None => None
          case Some(i) =>
            Some(Mutation(LookupProject(inv.resource, inv.params.project, inv.parse).value.nodeId,
                          inv.params.itemId, field.nodeId, field.options[i].id))
  }

  /** A mutation is issued exactly when every check passes, the labelled field
      is a single-select field and one of its options bears the label's option
      name; it then carries the project's node id, the item id, the field's node
      id and the id of the first such option in list order. */
  lemma PlannedIff(inv: Invocation, m: Mutation)
    ensures Planned(inv) == Some(m) <==>
      && Precheck(inv).None?
      && TargetField(inv).Some?
      && TargetField(inv).value.fieldType == SingleSelect
      && exists i: nat :: IsFirstMatch(TargetField(inv).value.options, OptionName(inv.payloadLabel.value), i)
           && m == Mutation(LookupProject(inv.resource, inv.params.project, inv.parse).value.nodeId,
                            inv.params.itemId, TargetField(inv).value.nodeId,
                            TargetField(inv).value.options[i].id)
  {
  }

  /** A label without `:` has no option segment, so it never causes a mutation. */
  lemma LabelWithoutColonNeverMatches(inv: Invocation)
    requires inv.payloadLabel.Some? && ':' !in inv.payloadLabel.value.name
    ensures Planned(inv) == None
  {
  }

  /** End to end, with no splitting left in the statement: for project
      `"<org>/<number>"` listed in the table, an item id and label
      `"<field>:<option>"`, the mutation targets that project's field of that
      name, if it is single-select, and its first option of that name. */
  lemma LabelSelectsOption(resource: Resource, org: string, numText: string, fieldName: string,
                           option: string, itemId: string, parse: NumberParser)
    requires '/' !in org && '/' !in numText && ':' !in fieldName && ':' !in option
    requires Listed(resource, org, parse(numText)) && itemId != ""
    ensures
      var project := resource.organizations[org].projects[parse(numText).value];
      var inv := Invocation(true, resource, Some(Label(fieldName + ":" + option)),
                            Params(itemId, "label", org + "/" + numText), parse);
      Planned(inv) ==
        if fieldName in project.fields && project.fields[fieldName].fieldType == SingleSelect then
          var field := project.fields[fieldName];
          match FirstMatch(field.options, Some(option))
          case Some(i) => Some(Mutation(project.nodeId, itemId, field.nodeId, field.options[i].id))
          case None => None
        else None
  {
    ValidateProjectIff(resource, org, numText, "", parse);
    SplitWithoutSeparator(option, ':');
    assert fieldName + ":" + option == fieldName + [':'] + option;
    SplitAfterFirst(fieldName, option, ':');
  }

  /** `UpdateGithubProjectV2ItemField`: runs the checks, then scans the options
      of the labelled single-select field and issues at most one mutation;
      `apiThrows` says whether the GraphQL call fails. Every path returns
      `null` (here `None`). */
  method UpdateGithubProjectV2ItemField(inv: Invocation, apiThrows: bool)
    returns (r: Option<string>, mutations: seq<Mutation>, logs: seq<LogEntry>)
    ensures r == None
    ensures |mutations| <= 1
    ensures mutations == if Planned(inv).Some? then [Planned(inv).value] else []
    ensures Precheck(inv).Some? ==> logs == RejectionLog(Precheck(inv).value)
    ensures Precheck(inv).None? ==>
      logs == [AttemptUpdate] + (if mutations == [] then [NoMatchFound]
                                 else if apiThrows then [CaughtError] else [ApiResponse])
    ensures NoMatchFound in logs <==> Precheck(inv).None? && mutations == []
  {
    r, mutations, logs := None, [], [];
    if !inv.resourceValid {
      return;
    }
    if !ValidateProject(inv.resource, inv.params.project, inv.parse) {
      logs := [Rejected(ProjectDefined)];
      return;
    }
    if inv.payloadLabel.None? {
      logs := [Rejected(LabelPresent)];
      return;
    }
    if inv.params.itemId == "" {
      logs := [Rejected(ItemIdPresent)];
      return;
    }
    if inv.params.updateMethod != "label" {
      logs := [Rejected(LabelMethod)];
      return;
    }

    logs := [AttemptUpdate];
    var projectNode := LookupProject(inv.resource, inv.params.project, inv.parse);
    var labelSplit := Split(inv.payloadLabel.value.name, ':');
    var fieldNode: Option<Field> :=
      if projectNode.Some? && labelSplit[0] in projectNode.value.fields
      then Some(projectNode.value.fields[labelSplit[0]]) else None;
    var fieldOptionMatch := 0;
    if fieldNode.Some? && fieldNode.value.fieldType == SingleSelect {
      var options := fieldNode.value.options;
      var wanted := Segment(labelSplit, 1);
      var i := 0;
      while i < |options|
        invariant 0 <= i <= |options|
        invariant fieldOptionMatch == 0 && mutations == []
        invariant forall j | 0 <= j < i :: !Names(options[j], wanted)
      {
        if Names(options[i], wanted) {
          fieldOptionMatch := fieldOptionMatch + 1;
          assert FirstMatch(options, wanted) == Some(i);
          mutations := [Mutation(projectNode.value.nodeId, inv.params.itemId, fieldNode.value.nodeId, options[i].id)];
          if apiThrows {
            logs := logs + [CaughtError];
            return;
          }
          logs := logs + [ApiResponse];
          break;
        }
        i := i + 1;
      }
    }
    if fieldOptionMatch == 0 {
      logs := logs + [NoMatchFound];
    }
  }
}
