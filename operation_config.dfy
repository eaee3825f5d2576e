/** The operation configuration: its schema, the validated document, and the
    `Operation` built from it. Reading the file and the schema library are
    not part of this model: the document arrives as a parsed `Json` value and
    the schema is checked by `JsonSchema.Validates`. */
module Configuration {
  import opened Wrappers
  import opened JsonSchema

  // ---------------------------------------------------------------- schema

  const StringSchema: Schema := Schema(StringType, map[], None, None, [])

  /** `args`: an object whose every member is a string. */
  const ArgsSchema: Schema := Schema(ObjectType, map[], None, Some(StringSchema), [])

  /** One task: `call` and `args` required, `name` optional. */
  const TaskSchema: Schema :=
    Schema(ObjectType, map["name" := StringSchema, "call" := StringSchema, "args" := ArgsSchema],
           None, None, ["call", "args"])

  const EventsSchema: Schema := Schema(ArrayType, map[], Some(StringSchema), None, [])

  const TasksSchema: Schema := Schema(ArrayType, map[], Some(TaskSchema), None, [])

  /** The whole document: `name`, `events` and `tasks` required. */
  const ConfigSchema: Schema :=
    Schema(ObjectType, map["name" := StringSchema, "events" := EventsSchema, "tasks" := TasksSchema],
           None, None, ["name", "events", "tasks"])

  // ------------------------------------------- the shape, written directly

  predicate IsStringArray(j: Json) {
    j.JArray? && forall i | 0 <= i < |j.elements| :: j.elements[i].JString?
  }

  predicate IsStringMap(j: Json) {
    j.JObject? && forall k | k in j.members :: j.members[k].JString?
  }

  predicate IsTaskData(j: Json) {
    && j.JObject?
    && "call" in j.members && j.members["call"].JString?
    && "args" in j.members && IsStringMap(j.members["args"])
    && ("name" in j.members ==> j.members["name"].JString?)
  }

  predicate IsOperationData(j: Json) {
    && j.JObject?
    && "name" in j.members && j.members["name"].JString?
    && "events" in j.members && IsStringArray(j.members["events"])
    && "tasks" in j.members && j.members["tasks"].JArray?
    && forall i | 0 <= i < |j.members["tasks"].elements| :: IsTaskData(j.members["tasks"].elements[i])
  }

  lemma StringSchemaIff(j: Json)
    ensures Validates(j, StringSchema) <==> j.JString?
  {
  }

  /** `args` validates iff it is an object of strings. */
  lemma ArgsSchemaIff(j: Json)
    ensures Validates(j, ArgsSchema) <==> IsStringMap(j)
  {
  }

  /** `events` validates iff it is an array of strings. */
  lemma EventsSchemaIff(j: Json)
    ensures Validates(j, EventsSchema) <==> IsStringArray(j)
  {
  }

  /** A task item validates iff it is an object with string `call`, string-map
      `args` and, if present, string `name`. Other members are allowed. */
  lemma TaskSchemaIff(j: Json)
    ensures Validates(j, TaskSchema) <==> IsTaskData(j)
  {
    if j.JObject? {
      var m := j.members;
      forall k | k in m && k in TaskSchema.properties
        ensures Validates(m[k], TaskSchema.properties[k]) <==>
                (if k == "args" then IsStringMap(m[k]) else m[k].JString?)
      {
        StringSchemaIff(m[k]);
        ArgsSchemaIff(m[k]);
      }
      if Validates(j, TaskSchema) {
        assert TaskSchema.required[0] in m && TaskSchema.required[1] in m;
      }
    }
  }

  /** The schema accepts exactly the documents of the operation shape. */
  lemma ConfigSchemaIff(j: Json)
    ensures Validates(j, ConfigSchema) <==> IsOperationData(j)
  {
    if j.JObject? {
      var m := j.members;
      forall k | k in m && k in ConfigSchema.properties
        ensures Validates(m[k], ConfigSchema.properties[k]) <==>
                (if k == "name" then m[k].JString?
                 else if k == "events" then IsStringArray(m[k])
                 else m[k].JArray? && forall i | 0 <= i < |m[k].elements| :: IsTaskData(m[k].elements[i]))
      {
        StringSchemaIff(m[k]);
        EventsSchemaIff(m[k]);
        if m[k].JArray? {
          forall i | 0 <= i < |m[k].elements| ensures Validates(m[k].elements[i], TaskSchema) <==> IsTaskData(m[k].elements[i]) {
            TaskSchemaIff(m[k].elements[i]);
          }
        }
      }
      if Validates(j, ConfigSchema) {
        assert ConfigSchema.required[0] in m && ConfigSchema.required[1] in m && ConfigSchema.required[2] in m;
      }
    }
  }

  /** A document lacking `name`, `events` or `tasks` is rejected. */
  lemma MissingRequiredMemberRejected(j: Json, key: string)
    requires key == "name" || key == "events" || key == "tasks"
    requires j.JObject? && key !in j.members
    ensures !Validates(j, ConfigSchema)
  {
    ConfigSchemaIff(j);
  }

  // ------------------------------------------------------- typed records

  /** A task entry of the configuration; `name` may be absent. */
  datatype TaskData = TaskData(name: Option<string>, call: string, args: map<string, string>)

  datatype OperationData = OperationData(name: string, events: seq<string>, tasks: seq<TaskData>)

  /** The runtime task: the call name, its static arguments and its display
      name, as handed to the task constructor. */
  datatype Task = Task(call: string, args: map<string, string>, name: Option<string>)

  /** The runtime operation: a name, its trigger events and its tasks in order. */
  datatype Operation = Operation(name: string, events: seq<string>, tasks: seq<Task>)

  function AsStringMap(j: Json): map<string, string>
    requires IsStringMap(j)
  {
    map k | k in j.members :: j.members[k].str
  }

  function AsTaskData(j: Json): TaskData
    requires IsTaskData(j)
  {
    TaskData(if "name" in j.members then Some(j.members["name"].str) else None,
             j.members["call"].str,
             AsStringMap(j.members["args"]))
  }

  /** The validated document read as an `OperationData`. */
  function AsOperationData(j: Json): OperationData
    requires IsOperationData(j)
  {
    var events := j.members["events"].elements;
    var tasks := j.members["tasks"].elements;
    OperationData(j.members["name"].str,
                  seq(|events|, i requires 0 <= i < |events| => events[i].str),
                  seq(|tasks|, i requires 0 <= i < |tasks| => AsTaskData(tasks[i])))
  }

  function TaskToJson(d: TaskData): Json {
    var args := JObject(map k | k in d.args :: JString(d.args[k]));
    var required := map["call" := JString(d.call), "args" := args];
    JObject(if d.name.Some? then required["name" := JString(d.name.value)] else required)
  }

  /** The document an `OperationData` is written as. */
  function ToJson(d: OperationData): Json {
    JObject(map[
      "name" := JString(d.name),
      "events" := JArray(seq(|d.events|, i requires 0 <= i < |d.events| => JString(d.events[i]))),
      "tasks" := JArray(seq(|d.tasks|, i requires 0 <= i < |d.tasks| => TaskToJson(d.tasks[i])))])
  }

  lemma TaskRoundTrip(d: TaskData)
    ensures IsTaskData(TaskToJson(d)) && AsTaskData(TaskToJson(d)) == d
  {
  }

  /** Every `OperationData` is written as a schema-valid document that reads
      back as itself. */
  lemma OperationRoundTrip(d: OperationData)
    ensures Validates(ToJson(d), ConfigSchema)
    ensures IsOperationData(ToJson(d)) && AsOperationData(ToJson(d)) == d
  {
    var j := ToJson(d);
    var tasks := j.members["tasks"].elements;
    forall i | 0 <= i < |tasks| ensures IsTaskData(tasks[i]) && AsTaskData(tasks[i]) == d.tasks[i] {
      TaskRoundTrip(d.tasks[i]);
    }
    assert IsOperationData(j);
    ConfigSchemaIff(j);
    var back := AsOperationData(j);
    assert back.events == d.events;
    assert back.tasks == d.tasks;
  }

  // ------------------------------------------------------------ the class

  datatype ConfigError = SchemaViolation

  /** An operation configuration bound to the application handle `app`.
      Its fields are set once, during construction. */
  class OperationConfig<App> {
    const configData: Json
    const configSchema: Schema
    const app: App

    /** The document has passed the operation schema. */
    ghost predicate Valid() {
      configSchema == ConfigSchema && Validates(configData, configSchema)
    }

    /** The part of construction that follows a successful validation; `Load`
        performs the validation and the failure path. */
    constructor (configData: Json, app: App)
      requires Validates(configData, ConfigSchema)
      ensures Valid() && this.configData == configData && this.app == app
    {
      this.configData := configData;
      this.configSchema := ConfigSchema;
      this.app := app;
    }

    function GetApp(): App {
      app
    }

    /** One `Task` per entry, in order. */
    method InitTasks(taskDataArray: seq<TaskData>) returns (tasks: seq<Task>)
      ensures |tasks| == |taskDataArray|
      ensures forall i | 0 <= i < |tasks| ::
        && tasks[i].call == taskDataArray[i].call
        && tasks[i].args == taskDataArray[i].args
        && tasks[i].name == taskDataArray[i].name
    {
      tasks := [];
      for i := 0 to |taskDataArray|
        invariant |tasks| == i
        invariant forall j | 0 <= j < i :: tasks[j] == Task(taskDataArray[j].call, taskDataArray[j].args, taskDataArray[j].name)
      {
        var taskData := taskDataArray[i];
        var task := Task(taskData.call, taskData.args, taskData.name);
        tasks := tasks + [task];
      }
    }

    /** The `Operation` of the validated document: its name, its events and
        one task per configured task, in order. */
    method InitOperation() returns (op: Operation)
      requires Valid()
      ensures IsOperationData(configData)
      ensures op.name == AsOperationData(configData).name
      ensures op.events == AsOperationData(configData).events
      ensures |op.tasks| == |AsOperationData(configData).tasks|
      ensures forall i | 0 <= i < |op.tasks| ::
        var d := AsOperationData(configData).tasks[i];
        op.tasks[i] == Task(d.call, d.args, d.name)
    {
      ConfigSchemaIff(configData);
      var data := AsOperationData(configData);
      var tasks := InitTasks(data.tasks);
      op := Operation(data.name, data.events, tasks);
    }
  }

  /** Constructing an `OperationConfig` from a parsed document: validation
      against the operation schema comes first, and a document that fails it
      yields no configuration object. */
  method Load<App>(configData: Json, app: App) returns (r: Result<OperationConfig<App>, ConfigError>)
    ensures r.Success? <==> Validates(configData, ConfigSchema)
    ensures r.Failure? ==> r.error == SchemaViolation
    ensures r.Success? ==> fresh(r.value) && r.value.Valid() && r.value.configData == configData && r.value.app == app
  {
    if !Validates(configData, ConfigSchema) {
      return Failure(SchemaViolation);
    }
    var config := new OperationConfig(configData, app);
    return Success(config);
  }
}
