# Maintenance mode and workflow dispatch of the Cloudify manager REST service

This project models two parts of the manager's REST service in Dafny and proves properties about them.

- **The maintenance-mode controller** (`maintenance.dfy`, module `Maintenance`). The manager keeps one optional maintenance file. If there is no file, maintenance mode is deactivated.
  - `MaintenanceMode.Get` is the read path. It reports the stored record. While the record is `activating`, it first replaces `remaining_executions` with the live running-execution count.
  - `MaintenanceMode.Post` is the action endpoint. `activate` writes an `activating` record. `deactivate` removes the file. Repeating an action returns the current state with a not-modified flag, which stands for HTTP 304. Any other ASCII action raises `BadParametersError`; a non-ASCII one makes Python 2 raise `UnicodeEncodeError` while formatting that error's message.
  - The class holds the file as `record: Option<MaintenanceRecord>`. The pure functions `Read`, `Apply` and `Run` specify one read, one action and a sequence of actions.
- **The workflow client** (`workflow_dispatch.dfy`, module `WorkflowDispatch`). `execute_workflow` and `execute_system_workflow` put a `__cloudify_context` entry into the execution-parameters dict (the caller's own when it is non-empty) and merge the REST token into it. `execute_task` then sends the dict as one task to the `cloudify.management` queue, with the execution id as task id, and closes the broker client afterwards.
  - Caller values are a JSON-like datatype `Json`. Workflow and plugin dicts are `map<string, Json>`. The context dict is the datatype `ExecutionContext`, one field per key; an optional field stands for a key the dict may lack.
  - The mutable execution-parameters dict is the class `ParamDict`.
  - The broker is the class `Broker`. Its `log` records, in order, every client opened, every task sent or refused, and every client closed.

`wrappers.dfy` holds the `Option` and `Result` datatypes both modules use.

The parts of the environment the code reads from outside are parameters of the model:
- the running-execution count (`get_running_executions`);
- the clock (`datetime.now()`, an opaque string);
- the requesting user (`rest_security.get_username()`; `None` stands for the `AttributeError` case);
- the REST token (`current_user.get_auth_token()`);
- whether the broker accepts the next task (`Broker.accepting`);
- whether closing a broker client fails (`Broker.closeFails`).

Behaviours the model keeps as the code has them:
- `activate` always writes `activating`, even when no execution is running. Promotion to `activated` happens in a hook in `server.py`, which is not part of this model.
- A workflow whose plugin is missing from the list raises `IndexError`, not a "not found" error.
- A broker failure propagates as raised (`ChannelError` here). Nothing is retried.
- `celery.close()` runs in a `finally`. If it raises (`CloseError` here), that error replaces the handle or the send's error.
- The workflow client performs no maintenance-mode admission check.

## Model

| member | source | states |
|---|---|---|
| `Maintenance.MaintenanceMode.Get` | rest-service/manager_rest/resources_v2_1.py:68-84 | With no file the reply is the deactivated dict. An `activated` record is returned unchanged. An `activating` record is returned with `remaining_executions` set to the live count and every other field kept. The reply is missing (the handler falls off its end) exactly when the stored status is neither. |
| `Maintenance.MaintenanceMode.Post` | rest-service/manager_rest/resources_v2_1.py:90-126 | `activate` over an existing file returns that record as not-modified and changes nothing. `activate` with no file stores and returns an `activating` record: the count at that moment, the timestamp `now`, the user or `''`. `deactivate` always leaves no file and returns the deactivated dict, not-modified exactly when no file existed. Any other ASCII action raises `BadParametersError` with the source's message; a non-ASCII one raises `UnicodeEncodeError` while that message is formatted. Either error leaves the file untouched. |
| `Maintenance.Apply` | rest-service/manager_rest/resources_v2_1.py:93-126 | One action changes the file only in allowed ways: it keeps it, removes it, or creates an `activating` record where there was none. It preserves the invariant that every stored status is `activating` or `activated`. An error or a not-modified reply leaves the file as it was. For a file within the invariant, a successful reply reports a non-deactivated state exactly when a file remains. |
| `Maintenance.Read` | rest-service/manager_rest/resources_v2_1.py:68-84 | With no file the read reports the deactivated dict. A reply exists exactly when the stored file satisfies `Inv` (status `activating` or `activated`). A reply for a stored record keeps its status, timestamp and user; only an `activating` record has its count replaced by the live one. |
| `Maintenance.ReadAfterDeactivate` | rest-service/manager_rest/resources_v2_1.py:116-121 | After `deactivate`, whatever was stored, a read reports the deactivated dict. |
| `Maintenance.ActivateIsIdempotent` | rest-service/manager_rest/resources_v2_1.py:93-96 | A second `activate` is a not-modified reply carrying the record the first one left, and it changes nothing. |
| `Maintenance.RunPreservesInv` | rest-service/manager_rest/resources_v2_1.py:90-126 | Any sequence of actions keeps every stored status `activating` or `activated`. So (with `Get`) the read path always has a reply. |
| `Maintenance.RunReflectsLastAction` | rest-service/manager_rest/resources_v2_1.py:93-121 | After any sequence of actions a file exists exactly when the last valid action was `activate`. If no action was valid, it exists exactly when it existed before. |
| `Maintenance.RunKeepsExistingRecord` | rest-service/manager_rest/resources_v2_1.py:93-96 | Without a `deactivate`, an existing file is never rewritten, however many activations or invalid actions follow. |
| `Maintenance.ActivationSurvivesUntilDeactivate` | rest-service/manager_rest/resources_v2_1.py:75-82 | An activation from the deactivated state, followed by anything but `deactivate`, leaves exactly the record that activation wrote. A later read reports its timestamp and user with the live running count. |
| `WorkflowDispatch.MatchingPlugins` | rest-service/manager_rest/workflow_client.py:43 | The list comprehension raises `KeyError('name')` exactly when some plugin has no name. Otherwise it returns plugins of the list, and contains every plugin whose name equals the workflow's plugin. |
| `WorkflowDispatch.MatchingPluginsHeadIsFirst` | rest-service/manager_rest/workflow_client.py:43 | The first element of a non-empty comprehension result is the first plugin of the list with that name. |
| `WorkflowDispatch.FindPlugin` | rest-service/manager_rest/workflow_client.py:42-43 | `[…][0]`: a found plugin is one of the list and has the workflow's plugin name. Otherwise the lookup raises `KeyError('name')` or `IndexError`, nothing else. |
| `WorkflowDispatch.FindPluginIsFirstMatch` | rest-service/manager_rest/workflow_client.py:42-43 | The lookup raises `KeyError` exactly when a plugin has no name. It raises `IndexError` exactly when all plugins are named and none matches. Otherwise it succeeds, and then it returns the first matching plugin. |
| `WorkflowDispatch.WorkflowContext` | rest-service/manager_rest/workflow_client.py:38-60 | A missing `operation` or `plugin` key raises `KeyError`; a failed plugin lookup raises its error. Otherwise the context has type `workflow`, queue `cloudify.management`, `task_id` = `execution_id` = the given id, `task_name` = the workflow's operation, and the given workflow, blueprint and deployment ids and bypass flag passed through. Its plugin entry copies the name and, via `get`, the package name and version of the matched plugin. There is no token yet. |
| `WorkflowDispatch.WorkflowContextUsesFirstMatch` | rest-service/manager_rest/workflow_client.py:42-59 | A context that was built embeds the descriptor of the first plugin named as the workflow's plugin, and every plugin has a name. |
| `WorkflowDispatch.SystemWorkflowContext` | rest-service/manager_rest/workflow_client.py:77-93 | The system context has `execution_id` = `task_id`, the management queue, the task mapping as task name, and no plugin. `blueprint_id` and `deployment_id` are present exactly when a deployment is given, and are then taken from it. |
| `WorkflowDispatch.WithCredentials` | rest-service/manager_rest/workflow_client.py:25-26 | Merging the credentials sets `rest_token` to the token and leaves every other key of the context unchanged. |
| `WorkflowDispatch.SentParameters` | rest-service/manager_rest/workflow_client.py:45-63 | Only the `__cloudify_context` key is set. Every other caller key keeps its value. That key holds the context with the token merged in. |
| `WorkflowDispatch.ParametersOrEmpty` | rest-service/manager_rest/workflow_client.py:38 | The caller's dict is used when it is non-empty. For `None` or an empty dict (falsy in Python), a fresh empty dict is used. |
| `WorkflowDispatch.GetClient` | rest-service/manager_rest/workflow_client.py:117 | A new broker client is opened, and the broker records it. |
| `WorkflowDispatch.CeleryClient.ExecuteTask` | rest-service/manager_rest/workflow_client.py:119-121 | The broker records exactly one task: sent if it accepts, refused otherwise. On success the reply is a handle with the task id; on refusal it is the propagated error. |
| `WorkflowDispatch.CeleryClient.Close` | rest-service/manager_rest/workflow_client.py:123 | The client is closed, and the broker records the close. It reports `CloseError` exactly when closing fails. |
| `WorkflowDispatch.ExecuteTask` | rest-service/manager_rest/workflow_client.py:116-123 | The broker log grows by open, one send or refusal of the task `(queue, execution id, parameters)`, and close. So the client is closed whether or not the send succeeded. The reply is `CloseError` when closing fails, whatever the send did; otherwise the handle on a send and `ChannelError` on a refusal. |
| `WorkflowDispatch.WorkflowClient.ExecuteWorkflow` | rest-service/manager_rest/workflow_client.py:28-67 | If building the context raises, nothing is sent and the caller's dict is unchanged. Otherwise exactly one task goes to `cloudify.management` with task id = execution id, carrying the caller's other keys plus the credential-merged context. A non-empty caller dict is updated in place to that value; an empty one is left empty. The client is closed either way. The reply is as in `ExecuteTask`: `CloseError` when closing fails, else the handle or `ChannelError`. |
| `WorkflowDispatch.WorkflowClient.ExecuteSystemWorkflow` | rest-service/manager_rest/workflow_client.py:69-101 | Exactly one task goes to `cloudify.management` with task id = the system workflow's task id, carrying the caller's other keys plus its credential-merged system context. The caller's dict is updated in place, and the reply is chosen, as in `ExecuteWorkflow`. |
| `WorkflowDispatch.GetWorkflowClient` | rest-service/manager_rest/workflow_client.py:105-113 | The app config's workflow client is returned. It is created and stored on the first call, and reused afterwards. |

## Left out

- The deployment-update endpoints (`DeploymentUpdates.post`, `DeploymentUpdateSteps.post`, `DeploymentUpdateCommit.post`, `DeploymentUpdateFinalizeCommit.post`). They delegate to a deployment-updates manager that is not part of this model, and they do archive and DSL-parser I/O.
- `override_marshal_with`, the versioned `Deployments`/`Nodes`/`NodeInstances` resources and `PluginsId.delete`. These are response marshalling and exception re-wrapping around code that is not part of this model.
- `prepare_maintenance_dict` (`manager_rest/maintenance.py`) is not part of this model. The fields of the deactivated dict other than `status` are modelled as `''`, no count, and `''`.
- The promotion from `activating` to `activated` and the decrement of `remaining_executions` happen in the maintenance hook in `server.py`, which is not part of this model. The invariant over stored records allows the `activated` status that hook writes.
- The admission check that applies maintenance mode to new executions, and its atomicity, are not in `resources_v2_1.py` or `workflow_client.py`.
- MatchingPlugins: plugin names are compared as `Json` values, so Python's cross-type numeric equality (`True == 1`, `1 == 1.0`) and float values are not modelled; names that are strings, the usual case, compare as in Python.
- File-system access (existence check, JSON read and write, `mkdirs`, `os.remove`) is represented by the `record` field. Its durability and concurrent access are not modelled.
- Flask request handling, authentication, and the `SecuredResource`/`marshal_with` decorators are left out. The user name and REST token are parameters.
- The celery client is abstracted to the `Broker` log. Serialisation, delivery guarantees and the content of the returned async result beyond its task id are not modelled. Whether a send fails is the environment input `Broker.accepting`, and whether a close fails is `Broker.closeFails`; the exceptions' own types and messages are abstracted to `ChannelError` and `CloseError`.
- Unordered Python dict semantics beyond key/value equality do not matter here and are not modelled. The `__cloudify_context` dict is a record with one field per key, not a general map.
- Exceptions raised by the credential provider or by `celery_client.get_client()` are not modelled.
