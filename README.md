# Project-field update and operation configuration, in Dafny

This project models two pieces of a configuration-driven GitHub automation bot.

1. **`UpdateGithubProjectV2ItemField`** sets a single-select field of a project item from an issue label `"<Field>:<Option>"`.
   - It runs five checks in a fixed order, each of which can end the call early:
     1. the resource config is valid;
     2. the project is defined;
     3. the event carries a label;
     4. an item id is given;
     5. the method is `label`.
   - It resolves the project `"<org>/<number>"` in the resource lookup table (organisation → project number → project).
   - It splits the label on `:` and looks up the field named by the first piece.
   - For a `SINGLE_SELECT` field only, it scans the options in list order and stops at the first option whose name equals the second piece.
   - It issues at most one GraphQL mutation, and every path returns `null`.

   The mutation is modelled as the record it would carry: project node id, item id, field node id and option id. `validateProject` is modelled with it.
2. **`OperationConfig`** validates a configuration document against a constant JSON schema, then builds an `Operation`: a name, its trigger events, and one `Task` per configured task, in order.

Modules, one per file:

- `Wrappers`: `Option` (JavaScript's `undefined`) and `Result` (a thrown error).
- `Strings`: JavaScript's `split` on one character, with its characterisation. `Split` is the unique separator-free decomposition that joins back to the input.
- `Resources`: the resource lookup table, reduced to the parts the update reads.
- `ProjectFieldUpdate`: `validateProject`, the check chain, the first-match scan, the planned mutation, and the imperative `UpdateGithubProjectV2ItemField`.
- `ProjectFieldScenario`: the worked `Roadmap:<option>` example on project `opensearch-project/206`.
- `JsonSchema`: a small JSON datatype and an interpreter for the schema keywords that occur: `type`, `properties`, `items`, `additionalProperties` and `required`.
- `Configuration`:
  - the schema as constant data;
  - hand-written shape predicates, proved equivalent to the schema;
  - the typed records and a schema-valid encoding that round-trips;
  - the `OperationConfig` class.

The header comment of `update-github-project-v2-item-field.ts` says that `/` in an option value becomes `, `. The code does not do this: the second `:`-piece is compared verbatim, and the model does the same.

Neither the schema nor the model requires `name` or `events` to be non-empty. `Operation` receives `events` as listed; duplicates are kept.

## Model

| member | source | states |
|---|---|---|
| `Strings.Split` | src/call/update-github-project-v2-item-field.ts:76-79 | `split` yields at least one piece, no piece contains the separator, and joining the pieces with the separator gives back the input |
| `Strings.SplitUnique` | src/call/update-github-project-v2-item-field.ts:33-34 | any separator-free decomposition that joins to `s` is `Split(s)`, so `split` is fully determined |
| `Strings.SplitAfterFirst` | src/call/update-github-project-v2-item-field.ts:33-34 | `a + sep + b` with `a` separator-free splits into `a` followed by the pieces of `b` |
| `Strings.SplitWithoutSeparator` | src/call/update-github-project-v2-item-field.ts:79 | a string without the separator splits into itself alone |
| `ProjectFieldUpdate.LookupProject` | src/call/update-github-project-v2-item-field.ts:33-35 | the two-level `get` of the organisation and the parsed project number (also line 77); a definition, characterised by `ValidateProjectIff` |
| `ProjectFieldUpdate.ValidateProject` | src/call/update-github-project-v2-item-field.ts:32-43 | `validateProject`: true iff the lookup finds a project; a definition, characterised by `ValidateProjectIff` and `ValidateProjectNeedsSlash` |
| `ProjectFieldUpdate.ValidateProjectIff` | src/call/update-github-project-v2-item-field.ts:32-43 | for `"<org>/<number>"`, with or without further `/`-pieces, `validateProject` is true iff `org` is an organisation of the table and the parsed number is a key of its projects; the lookup yields exactly that table entry |
| `ProjectFieldUpdate.ValidateProjectNeedsSlash` | src/call/update-github-project-v2-item-field.ts:33-39 | a project string with no `/` never validates, since its number is `Number(undefined)` |
| `ProjectFieldUpdate.Precheck` | src/call/update-github-project-v2-item-field.ts:51-70 | returns no failure iff all five checks pass; a returned failure is a failing check, and every check before it in the fixed order passed |
| `ProjectFieldUpdate.FirstMatch` | src/call/update-github-project-v2-item-field.ts:83-85 | the scan stops at an option bearing the wanted name with none before it; it finds nothing only when no option bears that name |
| `ProjectFieldUpdate.TargetField` | src/call/update-github-project-v2-item-field.ts:77-80 | the project field named by the label's first `:`-piece, if the project has one; a definition, characterised by `LabelSelectsOption` |
| `ProjectFieldUpdate.OptionName` | src/call/update-github-project-v2-item-field.ts:79-84 | `labelSplit[1]`, undefined when the label has no `:`; a definition, characterised by `LabelWithoutColonNeverMatches` and `LabelSelectsOption` |
| `ProjectFieldUpdate.Planned` | src/call/update-github-project-v2-item-field.ts:79-95 | a mutation is planned only if every check passed and the labelled field exists with type `SINGLE_SELECT`; it carries the given item id |
| `ProjectFieldUpdate.PlannedIff` | src/call/update-github-project-v2-item-field.ts:76-107 | a mutation `m` is issued iff the checks pass, the field is single-select, and `m` carries the project's node id, the item id, the field's node id and the id of the first option in list order named by the label's second `:`-piece |
| `ProjectFieldUpdate.LabelWithoutColonNeverMatches` | src/call/update-github-project-v2-item-field.ts:79-84 | a label with no `:` has no option piece and never causes a mutation |
| `ProjectFieldUpdate.LabelSelectsOption` | src/call/update-github-project-v2-item-field.ts:72-108 | end to end, with no splitting in the statement: a listed `"<org>/<number>"`, a non-empty item id and label `"<field>:<option>"` yield the mutation for that project's field, if single-select, and its first option of that name; otherwise none |
| `ProjectFieldUpdate.UpdateGithubProjectV2ItemField` | src/call/update-github-project-v2-item-field.ts:45-120 | returns `null` on every path, including the caught error; issues at most one mutation, exactly the planned one; a failed check logs its error and issues nothing; "No match found" is logged iff the checks passed and no mutation was issued |
| `ProjectFieldScenario.RoadmapScenario` | src/call/update-github-project-v2-item-field.ts:14-18 | on project `opensearch-project/206` with single-select field `Roadmap`, label `Roadmap:Releases` sets the `Releases` option, and a name no option bears (`Roadmap:Unknown`) issues nothing |
| `JsonSchema.Validates` | src/config/operation-config.ts:10-45 | the schema check that `validateConfig` applies with this schema; a definition, characterised for the operation schema by `ConfigSchemaIff` |
| `Configuration.StringSchemaIff` | src/config/operation-config.ts:13-15 | a value satisfies `{type: 'string'}` iff it is a string |
| `Configuration.EventsSchemaIff` | src/config/operation-config.ts:16-21 | `events` is valid iff it is an array whose every item is a string |
| `Configuration.ArgsSchemaIff` | src/config/operation-config.ts:33-38 | `args` is valid iff it is an object whose every member is a string |
| `Configuration.TaskSchemaIff` | src/config/operation-config.ts:24-41 | a task item is valid iff it is an object with string `call` and string-map `args`, and with string `name` when `name` is present |
| `Configuration.ConfigSchemaIff` | src/config/operation-config.ts:10-45 | the schema accepts exactly the objects with string `name`, string-array `events` and an array `tasks` of valid task items |
| `Configuration.MissingRequiredMemberRejected` | src/config/operation-config.ts:44 | an object lacking `name`, `events` or `tasks` is rejected |
| `Configuration.TaskRoundTrip` | src/config/operation-config.ts:24-41 | every task record is written as a valid task item that reads back as the same record |
| `Configuration.AsOperationData` | src/config/operation-config.ts:71-73 | the `as OperationData` reading of the validated document; a definition, characterised by `OperationRoundTrip` |
| `Configuration.OperationRoundTrip` | src/config/operation-config.ts:70-73 | every operation record is written as a schema-valid document that reads back, as the cast to `OperationData` does, to the same record |
| `Configuration.OperationConfig.constructor` | src/config/operation-config.ts:47-53 | the object stores the document, the operation schema and the app, and its document satisfies that schema |
| `Configuration.Load` | src/config/operation-config.ts:47-53 | construction succeeds iff the document satisfies the schema; otherwise it fails with a schema violation and no object exists |
| `Configuration.OperationConfig.GetApp` | src/config/operation-config.ts:55-57 | `getApp`: the application handle given at construction; a definition |
| `Configuration.OperationConfig.InitTasks` | src/config/operation-config.ts:59-67 | one task per entry, the same length and order, and the i-th task carries the i-th entry's `call`, `args` and `name` |
| `Configuration.OperationConfig.InitOperation` | src/config/operation-config.ts:69-77 | only reachable on a validated document, which then has the operation shape; the operation's name and events are the document's, and its tasks correspond one to one and in order to the configured tasks |

## Left out

- The GraphQL call (`context.octokit.graphql`) is reduced to the emitted `Mutation` record. The query text and the response are not modelled. Whether the call throws is the input `apiThrows`.
- The random `clientMutationId` (`randomBytes(20)`) is not part of the `Mutation` record.
- `validateResourceConfig` (src/utility/verification/verify-resource) is not part of this model. Its verdict is the boolean input `resourceValid`, and its own log output is not modelled.
- JavaScript's `Number()` is an abstract partial function `parse: string -> Option<int>`. Its quirks are not modelled: whitespace, hexadecimal, empty string to 0, non-integer results. `None` stands for a value that can never be a key of the project table.
- Logging is a trace of `LogEntry` tags in call order. Message texts are not modelled. The `Setup Task` and `Setup Operation` console lines are not modelled.
- `async`/`await` is not modelled. The Probot app is the type parameter `App`.
- The call's parameters are strings, as the TypeScript interface declares.
  - An `undefined` project would throw in `split` outside the `try` and reject the promise; this is not modelled.
  - An `undefined` item id or method is not modelled.
  - A label whose `name` is not a string is not modelled.
- The only exception modelled inside the `try` is a failing GraphQL call. In the data model every field has an option list.
- `fieldNode.context.options` is flattened to `Field.options`. The `Resource` class (src/service/resource/resource) is not part of this model: the table holds only what the update reads.
- `Config.readConfig` and `validateConfig` (src/config/config) are not part of this model. The document arrives already parsed as a `Json` value, and `JsonSchema.Validates` interprets the schema keywords in use. A schema failure is the single error `SchemaViolation`; the library's message naming the failing constraint is not modelled.
- The base-class name passed to `super('OperationConfig')` is not modelled.
- The source assigns `configData` and `configSchema` before it validates and throws. The model validates in `Load` first and constructs afterwards. The difference is not observable, because a throwing constructor yields no object.
- JSON numbers are integers; the schema never constrains numbers.
- The `Task` and `Operation` classes (src/service/operation) are not part of this model; they are plain records. Call-name resolution, task execution and event dispatch live outside these files.
