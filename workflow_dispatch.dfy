/**
 * The workflow client of the REST service: it packages a workflow request into
 * the `__cloudify_context` entry of the execution parameters and hands them,
 * as one task, to the management queue of the task broker.
 */
module WorkflowDispatch {
  import opened Wrappers

  /** A JSON-like value, as held by the Python dicts this code builds and reads. */
  datatype Json =
    | JNull
    | JBool(b: bool)
    | JInt(i: int)
    | JStr(s: string)
    | JArray(items: seq<Json>)
    | JObject(fields: map<string, Json>)

  /** A Python dict with string keys. */
  type Dict = map<string, Json>

  /** The queue every workflow task is sent to. */
  const ManagementQueue := "cloudify.management"

  /** The key of the execution parameters that carries the execution context. */
  const ContextKey := "__cloudify_context"

  /** The exceptions a dispatch can raise. */
  datatype DispatchError =
    | KeyError(key: string)  // a missing key of a workflow or plugin dict
    | IndexError              // no plugin of the workflow's name
    | ChannelError            // the broker refused the task
    | CloseError              // closing the broker client failed

  /** A deployment as the system-workflow path reads it. */
  datatype Deployment = Deployment(id: string, blueprintId: string)

  /** One task as the broker receives it. */
  datatype Task = Task(queue: string, taskId: string, kwargs: Params)

  /** What happens on the broker connection, in order. */
  datatype Event = ClientOpened | TaskSent(task: Task) | SendFailed(task: Task) | ClientClosed

  /** The handle returned for a sent task, correlated by its task id. */
  datatype Handle = Handle(taskId: string)

  /** `dict.get(key)`: the value under `key`, or None. */
  function Lookup(d: Dict, key: string): Json {
    if key in d then d[key] else JNull
  }

  function OptionalString(s: Option<string>): Json {
    match s
    case Some(v) => JStr(v)
    case None => JNull
  }

  function OptionalBool(b: Option<bool>): Json {
    match b
    case Some(v) => JBool(v)
    case None => JNull
  }

  /** Every plugin of the list has a `name` key. */
  predicate AllNamed(plugins: seq<Dict>) {
    forall i :: 0 <= i < |plugins| ==> "name" in plugins[i]
  }

  /** Index `i` holds the first plugin named `name`, and every plugin before it has a name. */
  predicate IsFirstMatch(plugins: seq<Dict>, name: Json, i: int) {
    && 0 <= i < |plugins|
    && "name" in plugins[i] && plugins[i]["name"] == name
    && forall j :: 0 <= j < i ==> "name" in plugins[j] && plugins[j]["name"] != name
  }

  /**
   * The list comprehension `[p for p in plugins if p['name'] == name]`: it reads the
   * name of every plugin, so one plugin without a name raises KeyError.
   */
  function MatchingPlugins(plugins: seq<Dict>, name: Json): (r: Result<seq<Dict>, DispatchError>)
    ensures r.Failure? <==> !AllNamed(plugins)
    ensures r.Failure? ==> r.error == KeyError("name")
    ensures r.Success? ==> |r.value| <= |plugins|
    ensures r.Success? ==> forall p :: p in r.value ==> p in plugins && "name" in p && p["name"] == name
    ensures r.Success? ==> forall p :: p in plugins && p["name"] == name ==> p in r.value
    decreases |plugins|
  {
    if plugins == [] then Success([])
    else if "name" !in plugins[0] then Failure(KeyError("name"))
    else
      match MatchingPlugins(plugins[1..], name)
      case Failure(e) =>
        assert !AllNamed(plugins[1..]);
        Failure(e)
      case Success(rest) =>
        assert forall p :: p in plugins ==> p == plugins[0] || p in plugins[1..];
        Success(if plugins[0]["name"] == name then [plugins[0]] + rest else rest)
  }

  /** `[p for p in plugins if p['name'] == name][0]`. */
  function FindPlugin(plugins: seq<Dict>, name: Json): (r: Result<Dict, DispatchError>)
    ensures r.Success? ==> r.value in plugins && "name" in r.value && r.value["name"] == name
    ensures r.Failure? ==> r.error == KeyError("name") || r.error == IndexError
  {
    match MatchingPlugins(plugins, name)
    case Failure(e) => Failure(e)
    case Success(matches) => if matches == [] then Failure(IndexError) else Success(matches[0])
  }

  /** The head of the comprehension's result is the first plugin of that name. */
  lemma {:induction false} MatchingPluginsHeadIsFirst(plugins: seq<Dict>, name: Json)
    requires MatchingPlugins(plugins, name).Success?
    ensures var matches := MatchingPlugins(plugins, name).value;
            matches != [] ==> exists i :: IsFirstMatch(plugins, name, i) && matches[0] == plugins[i]
    decreases |plugins|
  {
    var matches := MatchingPlugins(plugins, name).value;
    if plugins != [] && plugins[0]["name"] != name {
      MatchingPluginsHeadIsFirst(plugins[1..], name);
      var rest := MatchingPlugins(plugins[1..], name).value;
      assert matches == rest;
      if matches != [] {
        var i :| IsFirstMatch(plugins[1..], name, i) && rest[0] == plugins[1..][i];
        assert IsFirstMatch(plugins, name, i + 1);
      }
    } else if plugins != [] {
      assert IsFirstMatch(plugins, name, 0);
    }
  }

  /**
   * The plugin lookup: KeyError when some plugin has no name, IndexError when no
   * plugin has the workflow's plugin name, and otherwise the first plugin that has.
   */
  lemma FindPluginIsFirstMatch(plugins: seq<Dict>, name: Json)
    ensures FindPlugin(plugins, name) == Failure(KeyError("name")) <==> !AllNamed(plugins)
    ensures FindPlugin(plugins, name) == Failure(IndexError) <==>
              AllNamed(plugins) && forall i :: 0 <= i < |plugins| ==> plugins[i]["name"] != name
    ensures FindPlugin(plugins, name).Success? <==> AllNamed(plugins) && exists i :: IsFirstMatch(plugins, name, i)
    ensures forall i :: AllNamed(plugins) && IsFirstMatch(plugins, name, i) ==> FindPlugin(plugins, name) == Success(plugins[i])
  {
    var r := MatchingPlugins(plugins, name);
    if r.Success? {
      MatchingPluginsHeadIsFirst(plugins, name);
      if r.value == [] {
        forall i | 0 <= i < |plugins| ensures plugins[i]["name"] != name {
          assert plugins[i] in plugins;
        }
      } else {
        var i :| IsFirstMatch(plugins, name, i) && r.value[0] == plugins[i];
        forall k | IsFirstMatch(plugins, name, k) ensures k == i {
        }
      }
    }
  }

  /** The plugin entry of a workflow context. */
  datatype PluginDescriptor = PluginDescriptor(name: Json, packageName: Json, packageVersion: Json)

  /**
   * The `__cloudify_context` dict, one field per key. An optional field is None
   * when the dict has no such key: the deployment keys of a system workflow
   * without a deployment, the plugin of a system workflow, and the REST token
   * before the credentials are merged.
   */
  datatype ExecutionContext = ExecutionContext(
    kind: string,
    taskName: Json,
    taskId: string,
    taskTarget: string,
    workflowId: string,
    blueprintId: Option<Json>,
    deploymentId: Option<Json>,
    executionId: string,
    bypassMaintenance: Json,
    plugin: Option<PluginDescriptor>,
    restToken: Option<string>)

  /** A value of the execution parameters: a caller's value, or the execution context. */
  datatype Param = Value(v: Json) | Context(ctx: ExecutionContext)

  /** The execution parameters: a dict from parameter names to values. */
  type Params = map<string, Param>

  /** `context.update({'rest_token': token})`: the credentials merged into a context. */
  function WithCredentials(context: ExecutionContext, token: string): (r: ExecutionContext)
    ensures r.restToken == Some(token)
    ensures r.(restToken := context.restToken) == context
  {
    context.(restToken := Some(token))
  }

  /**
   * The context of `execute_workflow`, or the exception raised while building it:
   * the workflow's `operation` and `plugin` keys are read first, then the plugin lookup.
   */
  function WorkflowContext(name: string, workflow: Dict, plugins: seq<Dict>,
                           blueprintId: Option<string>, deploymentId: Option<string>,
                           executionId: string, bypassMaintenance: Option<bool>): (r: Result<ExecutionContext, DispatchError>)
    ensures "operation" !in workflow ==> r == Failure(KeyError("operation"))
    ensures "operation" in workflow && "plugin" !in workflow ==> r == Failure(KeyError("plugin"))
    ensures "operation" in workflow && "plugin" in workflow ==>
              (r.Failure? <==> FindPlugin(plugins, workflow["plugin"]).Failure?) &&
              (r.Failure? ==> r.error == FindPlugin(plugins, workflow["plugin"]).error)
    ensures r.Success? ==>
              var ctx := r.value;
              var plugin := FindPlugin(plugins, workflow["plugin"]).value;
              && ctx.kind == "workflow"
              && ctx.taskTarget == ManagementQueue
              && ctx.taskId == ctx.executionId == executionId
              && ctx.taskName == workflow["operation"]
              && ctx.workflowId == name
              && ctx.blueprintId == Some(OptionalString(blueprintId))
              && ctx.deploymentId == Some(OptionalString(deploymentId))
              && ctx.bypassMaintenance == OptionalBool(bypassMaintenance)
              && ctx.restToken.None?
              && ctx.plugin.Some?
              && ctx.plugin.value.name == plugin["name"] == workflow["plugin"]
              && ctx.plugin.value.packageName == Lookup(plugin, "package_name")
              && ctx.plugin.value.packageVersion == Lookup(plugin, "package_version")
  {
    if "operation" !in workflow then Failure(KeyError("operation"))
    else if "plugin" !in workflow then Failure(KeyError("plugin"))
    else
      var taskName := workflow["operation"];
      var pluginName := workflow["plugin"];
      match FindPlugin(plugins, pluginName)
      case Failure(e) => Failure(e)
      case Success(plugin) =>
        FindPluginIsFirstMatch(plugins, pluginName);
        Success(ExecutionContext(
          kind := "workflow",
          taskName := taskName,
          taskId := executionId,
          taskTarget := ManagementQueue,
          workflowId := name,
          blueprintId := Some(OptionalString(blueprintId)),
          deploymentId := Some(OptionalString(deploymentId)),
          executionId := executionId,
          bypassMaintenance := OptionalBool(bypassMaintenance),
          plugin := Some(PluginDescriptor(pluginName, Lookup(plugin, "package_name"), Lookup(plugin, "package_version"))),
          restToken := None))
  }

  /**
   * A workflow context embeds the first plugin whose name is the workflow's plugin,
   * and only when every plugin has a name.
   */
  lemma WorkflowContextUsesFirstMatch(name: string, workflow: Dict, plugins: seq<Dict>,
                                      blueprintId: Option<string>, deploymentId: Option<string>,
                                      executionId: string, bypassMaintenance: Option<bool>)
    requires WorkflowContext(name, workflow, plugins, blueprintId, deploymentId, executionId, bypassMaintenance).Success?
    ensures AllNamed(plugins)
    ensures var ctx := WorkflowContext(name, workflow, plugins, blueprintId, deploymentId, executionId, bypassMaintenance).value;
            exists i :: IsFirstMatch(plugins, workflow["plugin"], i) &&
                        ctx.plugin == Some(PluginDescriptor(plugins[i]["name"],
                                                            Lookup(plugins[i], "package_name"),
                                                            Lookup(plugins[i], "package_version")))
  {
    FindPluginIsFirstMatch(plugins, workflow["plugin"]);
  }

  /** The context of `execute_system_workflow`, before the credentials are merged. */
  function SystemWorkflowContext(workflowId: string, taskId: string, taskMapping: string,
                                 deployment: Option<Deployment>, bypassMaintenance: Option<bool>): (ctx: ExecutionContext)
    ensures ctx.kind == "workflow"
    ensures ctx.taskTarget == ManagementQueue
    ensures ctx.executionId == ctx.taskId == taskId
    ensures ctx.taskName == JStr(taskMapping)
    ensures ctx.workflowId == workflowId
    ensures ctx.bypassMaintenance == OptionalBool(bypassMaintenance)
    ensures ctx.plugin.None? && ctx.restToken.None?
    ensures ctx.blueprintId.Some? <==> deployment.Some?
    ensures ctx.deploymentId.Some? <==> deployment.Some?
    ensures deployment.Some? ==>
              ctx.blueprintId == Some(JStr(deployment.value.blueprintId)) &&
              ctx.deploymentId == Some(JStr(deployment.value.id))
  {
    var context := ExecutionContext(
      kind := "workflow",
      taskName := JStr(taskMapping),
      taskId := taskId,
      taskTarget := ManagementQueue,
      workflowId := workflowId,
      blueprintId := None,
      deploymentId := None,
      executionId := taskId,
      bypassMaintenance := OptionalBool(bypassMaintenance),
      plugin := None,
      restToken := None);
    match deployment
    case None => context
    case Some(d) => context.(blueprintId := Some(JStr(d.blueprintId)), deploymentId := Some(JStr(d.id)))
  }

  /**
   * The execution parameters as sent: the caller's entries (none when it passed
   * None or an empty dict) with the context, credentials merged, under its key.
   */
  function SentParameters(given: Params, context: ExecutionContext, token: string): (r: Params)
    ensures r.Keys == given.Keys + {ContextKey}
    ensures forall k :: k in given && k != ContextKey ==> r[k] == given[k]
    ensures r[ContextKey] == Context(WithCredentials(context, token))
  {
    given[ContextKey := Context(WithCredentials(context, token))]
  }

  /** The execution parameters dict of a caller, which the client updates in place. */
  class ParamDict {
    var entries: Params

    constructor (entries: Params)
      ensures this.entries == entries
    {
      this.entries := entries;
    }
  }

  /**
   * The task broker: what happened on its connections, whether it accepts the next
   * task, and whether closing a client connection fails.
   */
  class Broker {
    var log: seq<Event>
    var accepting: bool
    var closeFails: bool

    constructor (accepting: bool, closeFails: bool)
      ensures log == [] && this.accepting == accepting && this.closeFails == closeFails
    {
      log := [];
      this.accepting := accepting;
      this.closeFails := closeFails;
    }
  }

  /** One client connection to the broker. */
  class CeleryClient {
    const broker: Broker
    var open: bool

    constructor (broker: Broker)
      ensures this.broker == broker && open
    {
      this.broker := broker;
      open := true;
    }

    /** Sends one task; the broker either records it or refuses it. */
    method ExecuteTask(taskQueue: string, taskId: string, kwargs: Params) returns (res: Result<Handle, DispatchError>)
      requires open
      modifies broker
      ensures broker.accepting == old(broker.accepting) && broker.closeFails == old(broker.closeFails)
      ensures old(broker.accepting) ==>
                res == Success(Handle(taskId)) &&
                broker.log == old(broker.log) + [TaskSent(Task(taskQueue, taskId, kwargs))]
      ensures !old(broker.accepting) ==>
                res == Failure(ChannelError) &&
                broker.log == old(broker.log) + [SendFailed(Task(taskQueue, taskId, kwargs))]
    {
      var task := Task(taskQueue, taskId, kwargs);
      if broker.accepting {
        broker.log := broker.log + [TaskSent(task)];
        res := Success(Handle(taskId));
      } else {
        broker.log := broker.log + [SendFailed(task)];
        res := Failure(ChannelError);
      }
    }

    /**
     * Closes the connection; the close is recorded whether or not it fails, and a
     * failure is reported as the error it raises.
     */
    method Close() returns (err: Option<DispatchError>)
      requires open
      modifies this, broker
      ensures !open && broker.accepting == old(broker.accepting) && broker.closeFails == old(broker.closeFails)
      ensures broker.log == old(broker.log) + [ClientClosed]
      ensures err == if old(broker.closeFails) then Some(CloseError) else None
    {
      broker.log := broker.log + [ClientClosed];
      open := false;
      if broker.closeFails {
        err := Some(CloseError);
      } else {
        err := None;
      }
    }
  }

  /** `celery_client.get_client()`: a new connection to the broker. */
  method GetClient(broker: Broker) returns (client: CeleryClient)
    modifies broker
    ensures fresh(client) && client.broker == broker && client.open
    ensures broker.accepting == old(broker.accepting) && broker.closeFails == old(broker.closeFails)
    ensures broker.log == old(broker.log) + [ClientOpened]
  {
    client := new CeleryClient(broker);
    broker.log := broker.log + [ClientOpened];
  }

  /**
   * `execute_task`: opens a client, sends the execution parameters as one task
   * whose task id is the execution id, and closes the client whether or not the
   * send succeeded. The close runs in a `finally`, so an error it raises replaces
   * the handle or the send's error.
   */
  method ExecuteTask(taskQueue: string, executionId: string, params: ParamDict, broker: Broker)
    returns (res: Result<Handle, DispatchError>)
    modifies broker
    ensures broker.accepting == old(broker.accepting) && broker.closeFails == old(broker.closeFails)
    ensures var task := Task(taskQueue, executionId, params.entries);
            broker.log == old(broker.log) +
              [ClientOpened, if old(broker.accepting) then TaskSent(task) else SendFailed(task), ClientClosed]
    ensures res == if old(broker.closeFails) then Failure(CloseError)
                   else if old(broker.accepting) then Success(Handle(executionId))
                   else Failure(ChannelError)
  {
    var celery := GetClient(broker);
    res := celery.ExecuteTask(taskQueue, executionId, params.entries);
    var closeError := celery.Close();
    if closeError.Some? {
      res := Failure(closeError.value);
    }
  }

  /** `execution_parameters or {}`: the caller's dict unless it is None or empty. */
  method ParametersOrEmpty(params: ParamDict?) returns (p: ParamDict)
    ensures params != null && params.entries != map[] ==> p == params
    ensures params == null || params.entries == map[] ==> fresh(p) && p.entries == map[]
  {
    if params != null && params.entries != map[] {
      p := params;
    } else {
      p := new ParamDict(map[]);
    }
  }

  class WorkflowClient {
    constructor () {}

    /**
     * `execute_workflow`: builds the context of a deployment workflow, stores it in the
     * execution parameters (the caller's dict, unless it passed None or an empty one),
     * merges the REST token `token` into it and sends the parameters as one task.
     */
    method ExecuteWorkflow(name: string, workflow: Dict, plugins: seq<Dict>,
                           blueprintId: Option<string>, deploymentId: Option<string>, executionId: string,
                           params: ParamDict?, bypassMaintenance: Option<bool>, token: string, broker: Broker)
      returns (res: Result<Handle, DispatchError>)
      modifies params, broker
      ensures broker.accepting == old(broker.accepting) && broker.closeFails == old(broker.closeFails)
      ensures var ctx := WorkflowContext(name, workflow, plugins, blueprintId, deploymentId, executionId, bypassMaintenance);
              ctx.Failure? ==>
                res == Failure(ctx.error) && broker.log == old(broker.log) &&
                (params != null ==> params.entries == old(params.entries))
      ensures var ctx := WorkflowContext(name, workflow, plugins, blueprintId, deploymentId, executionId, bypassMaintenance);
              var given := if params == null then map[] else old(params.entries);
              ctx.Success? ==>
                var sent := SentParameters(given, ctx.value, token);
                && (params != null && old(params.entries) != map[] ==> params.entries == sent)
                && (params != null && old(params.entries) == map[] ==> params.entries == map[])
                && broker.log == old(broker.log) +
                     [ClientOpened,
                      if old(broker.accepting) then TaskSent(Task(ManagementQueue, executionId, sent))
                      else SendFailed(Task(ManagementQueue, executionId, sent)),
                      ClientClosed]
                && res == if old(broker.closeFails) then Failure(CloseError)
                          else if old(broker.accepting) then Success(Handle(executionId))
                          else Failure(ChannelError)
    {
      var context := WorkflowContext(name, workflow, plugins, blueprintId, deploymentId, executionId, bypassMaintenance);
      if context.Failure? {
        return Failure(context.error);
      }
      var executionParameters := ParametersOrEmpty(params);
      executionParameters.entries := executionParameters.entries[ContextKey := Context(context.value)];
      executionParameters.entries :=
        executionParameters.entries[ContextKey := Context(WithCredentials(context.value, token))];
      assert executionParameters.entries ==
        SentParameters(if params == null then map[] else old(params.entries), context.value, token);
      res := ExecuteTask(ManagementQueue, executionId, executionParameters, broker);
    }

    /**
     * `execute_system_workflow`: as `ExecuteWorkflow`, for a system workflow whose task
     * id is also its execution id and whose deployment is optional.
     */
    method ExecuteSystemWorkflow(workflowId: string, taskId: string, taskMapping: string,
                                 deployment: Option<Deployment>, params: ParamDict?,
                                 bypassMaintenance: Option<bool>, token: string, broker: Broker)
      returns (res: Result<Handle, DispatchError>)
      modifies params, broker
      ensures broker.accepting == old(broker.accepting) && broker.closeFails == old(broker.closeFails)
      ensures var ctx := SystemWorkflowContext(workflowId, taskId, taskMapping, deployment, bypassMaintenance);
              var given := if params == null then map[] else old(params.entries);
              var sent := SentParameters(given, ctx, token);
              && (params != null && old(params.entries) != map[] ==> params.entries == sent)
              && (params != null && old(params.entries) == map[] ==> params.entries == map[])
              && broker.log == old(broker.log) +
                   [ClientOpened,
                    if old(broker.accepting) then TaskSent(Task(ManagementQueue, taskId, sent))
                    else SendFailed(Task(ManagementQueue, taskId, sent)),
                    ClientClosed]
              && res == if old(broker.closeFails) then Failure(CloseError)
                        else if old(broker.accepting) then Success(Handle(taskId))
                        else Failure(ChannelError)
    {
      var context := SystemWorkflowContext(workflowId, taskId, taskMapping, deployment, bypassMaintenance);
      var executionParameters := ParametersOrEmpty(params);
      executionParameters.entries := executionParameters.entries[ContextKey := Context(context)];
      executionParameters.entries :=
        executionParameters.entries[ContextKey := Context(WithCredentials(context, token))];
      assert executionParameters.entries ==
        SentParameters(if params == null then map[] else old(params.entries), context, token);
      res := ExecuteTask(ManagementQueue, taskId, executionParameters, broker);
    }
  }

  /** The application config as far as the workflow client goes. */
  class AppConfig {
    var workflowClient: WorkflowClient?

    constructor ()
      ensures workflowClient == null
    {
      workflowClient := null;
    }
  }

  /** `get_workflow_client`: the app's workflow client, created on first use. */
  method GetWorkflowClient(config: AppConfig) returns (client: WorkflowClient)
    modifies config
    ensures old(config.workflowClient) != null ==> client == old(config.workflowClient)
    ensures old(config.workflowClient) == null ==> fresh(client)
    ensures config.workflowClient == client
  {
    if config.workflowClient == null {
      config.workflowClient := new WorkflowClient();
    }
    client := config.workflowClient;
  }
}
