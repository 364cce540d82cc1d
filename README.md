# ecs-deploy, modelled in Dafny

`ecs-deploy.rb` is a command-line script that does canary deploys of one service on an
ECS cluster. `deploy --canary` does the following:

- registers a new revision of the task definition, with the freshly built image;
- starts one task of that revision tagged `canary`;
- polls until the task has a private address;
- registers that address on port 8000 of the load balancer's target group.

The other entry points act on that canary:

- `deploy` promotes the canary: the service gets the canary's revision and the canary is removed.
- `rollback --canary` removes the canary and deregisters its revision.
- `rollback` deregisters the newest revision and moves the service to the revision that is newest afterwards.

This project models that script:

- the command-line check and the dispatch;
- the four entry points and the helpers they share;
- the image rewrite of the task definition;
- the private-address extraction from a `describe-tasks` response;
- the readiness loop.

The remote side (ECS and the target group) is one object, `Cluster.Cluster`. It holds:

- the family's active revisions, newest first;
- every registered definition;
- the tasks, in launch order, each with its `startedBy` tag, its revision, its attachments and its desired status;
- the target group as a set of (ip, port);
- the service's revision;
- a log of the mutating calls the backend accepted, in order.

Each `aws` invocation of the script is one method or function of that object. The order of the
script's effects is stated through the call log.

Modules:

- `Wrappers`: `Option` and `Result`.
- `TaskDefinitions`: revision ids, container definitions, the image override and the registered copy.
- `TaskResponses`: the parsed `describe-tasks` response and `get_task_private_ip`.
- `Cluster`: the remote state and the effect of each CLI call.
- `Cli`: `validate_args` and the `exec_command` branch choice, as pure functions.
- `Deploy`: class `EcsDeploy` (the script's class `ECSDeploy`) with the entry points and helpers, and `Run`, the script from start to end.

Conventions:

- A Ruby `nil` is `None`.
- A CLI call given a nil argument is refused by the CLI and changes nothing. If its output is then
  handed to `JSON.parse`, the empty output raises, and the run stops with `Aborted(EmptyResponse)`.
  That covers the nil ARN `get_task_arn` gives when no canary runs, and a description of the newest
  revision lacking a value `register-task-definition` is passed (`TaskDefinitions.Registrable`).
- The effect of each entry point is a two-state predicate (`CanaryDeployed`, `CanaryRolledBack`,
  `Promoted`, `RolledBack`). Each gives the whole new cluster state as an update of the old one,
  so everything it does not name is unchanged.

Two points of the script's behaviour worth noting:

- `canary_rollback` does stop the canary task and deregister its address, through
  `remove_canary_task` (ecs-deploy.rb:61, 255-262), before it deregisters the revision.
- The new revision is not a full copy of the old one. Only the listed fields are passed on,
  and only the first of the required compatibilities (ecs-deploy.rb:188-197).

## Model

| member | source | states |
|---|---|---|
| TaskDefinitions.ImageOverride | ecs-deploy.rb:182-186 | the rewritten container list has the same length and order; names and other settings are unchanged; a container gets the new image exactly when its name is the configured one |
| TaskDefinitions.OverrideContainerImages | ecs-deploy.rb:182-186 | the in-order loop builds exactly the list ImageOverride describes |
| TaskDefinitions.OverrideIdempotent | ecs-deploy.rb:184 | overriding again with the same image changes nothing |
| TaskDefinitions.OverrideLastWins | ecs-deploy.rb:184 | a second override of the same container replaces the first |
| TaskDefinitions.OverrideWithoutMatchIsIdentity | ecs-deploy.rb:184 | when no container has the configured name, the container list is unchanged |
| TaskDefinitions.RegisteredCopy | ecs-deploy.rb:188-197 | the registered definition has the configured family, the rewritten containers and only the first required compatibility; every other field is the base revision's |
| TaskDefinitions.RegisteredCopyChangesOnlyImage | ecs-deploy.rb:179-197 | with one compatibility and the same family, the new revision differs from the base only in the images of the containers with the configured name |
| TaskResponses.Named | ecs-deploy.rb:284 | the selection holds exactly the details with the given name, never more than the input |
| TaskResponses.NamedStartsWithFirstMatch | ecs-deploy.rb:284 | the first detail with the name is the head of the selection |
| TaskResponses.TaskPrivateIp | ecs-deploy.rb:282-289 | no address when `tasks` is missing or empty; otherwise the address read from the first task's attachments |
| TaskResponses.DetailsIpIsFirstMatch | ecs-deploy.rb:284-285 | the address is the value of the first detail named privateIPv4Address |
| TaskResponses.DetailsIpAbsent | ecs-deploy.rb:285-288 | with no detail of that name the result is nil |
| TaskResponses.TaskPrivateIpPath | ecs-deploy.rb:283-286 | an address implies a first task, a first attachment with details, and a detail of that name carrying that value |
| TaskResponses.NamedDistributes | ecs-deploy.rb:284 | the selection is a filter: selecting from two runs of details is the concatenation of the selections |
| TaskResponses.DetailsIp | ecs-deploy.rb:284-285 | an address comes from a detail named privateIPv4Address that carries that value |
| TaskResponses.AttachmentsIp | ecs-deploy.rb:283-285 | an address is found exactly along the path: with a first attachment that has details, the result is the address those details give; without one, nil |
| Cluster.Without | ecs-deploy.rb:205-209 | deregistration removes exactly that revision from the active list; an unknown one leaves the list as it is |
| Cluster.WithoutNewest | ecs-deploy.rb:79-81 | deregistering the head of a newest-first list leaves its tail, so the next listing's head is the previous revision |
| Cluster.WithoutRemovesOne | ecs-deploy.rb:205-209 | deregistering an active revision shortens the list by exactly one |
| Cluster.WithoutKeepsOrder | ecs-deploy.rb:153-158 | the active list stays sorted newest first |
| Cluster.PrependNewest | ecs-deploy.rb:153-158 | a revision numbered above every active one heads a list that stays sorted newest first |
| Cluster.FirstRunningWith | ecs-deploy.rb:264-268 | the first listed task with the tag and a running desired status; none before it qualifies, and None means none at all |
| Cluster.RunningArns | ecs-deploy.rb:265-268 | the `list-tasks` result is empty exactly when no task qualifies; its head is the first qualifying task |
| Cluster.IndexOf | ecs-deploy.rb:271-276 | the first task with the ARN, or None when there is none |
| Cluster.IndexOfOwnArn | ecs-deploy.rb:271-276 | with distinct ARNs a task is found at its own position |
| Cluster.Cluster.ListTaskDefinitions | ecs-deploy.rb:153-158 | the listing is a prefix of the newest-first revisions, at most the requested size |
| Cluster.Cluster.DescribeTaskDefinition | ecs-deploy.rb:165-170 | the answer is the definition registered under that revision |
| Cluster.Cluster.ListTasks | ecs-deploy.rb:264-268 | an ARN is listed exactly when some task with it was started with the tag and is still meant to run |
| Cluster.Cluster.DescribeTasks | ecs-deploy.rb:271-277 | a one-task response carrying that task's revision and attachments |
| Cluster.Cluster.RegisterTaskDefinition | ecs-deploy.rb:188-199 | a fresh revision of the family becomes the newest; the definition is stored and the call logged; nothing else changes |
| Cluster.Cluster.DeregisterTaskDefinition | ecs-deploy.rb:205-210 | a known revision leaves the active list and the call is logged; a nil or unknown one changes nothing |
| Cluster.Cluster.UpdateService | ecs-deploy.rb:212-221 | the service moves to a known revision and the call is logged; a nil or unknown one changes nothing |
| Cluster.Cluster.RunTask | ecs-deploy.rb:230-244 | one new running task with a fresh ARN, the given revision and tag, and no address yet, appended and logged |
| Cluster.Cluster.Provision | ecs-deploy.rb:44-46 | a known task's attachments become the scheduler's latest report; nothing else changes |
| Cluster.Cluster.StopTask | ecs-deploy.rb:246-253 | the known task's desired status becomes stopped and the call is logged |
| Cluster.Cluster.RegisterTargets | ecs-deploy.rb:292-297 | (ip, port) joins the target group and the call is logged; a nil ip changes nothing |
| Cluster.Cluster.DeregisterTargets | ecs-deploy.rb:300-305 | (ip, port) leaves the target group and the call is logged; a nil ip changes nothing |
| Cli.CommandOf | ecs-deploy.rb:119 | the first argument, nil on an empty command line |
| Cli.HasCanaryFlag | ecs-deploy.rb:125 | true exactly when some argument, in any position, is `--canary` |
| Cli.ValidCommand | ecs-deploy.rb:119-120 | true exactly when there is a first argument and it is `deploy` or `rollback` |
| Cli.Dispatch | ecs-deploy.rb:23-33 | a branch is taken exactly for `deploy` or `rollback`, and it is the entry point with that command and that `--canary` choice |
| Cli.Argv | ecs-deploy.rb:88-99 | each entry point's usage line has its command first and `--canary` exactly for the canary entry points |
| Cli.DispatchIsOnto | ecs-deploy.rb:23-33 | an accepted command line reaches an entry point, and every entry point is reached by its usage line |
| Cli.DispatchIsInjective | ecs-deploy.rb:23-33 | two command lines reach the same entry point only if they agree on the command and on `--canary` |
| Deploy.ImageName | ecs-deploy.rb:133-135 | the name is `url/name`, a colon, then the tag |
| Deploy.ImageNameDeterminesTag | ecs-deploy.rb:133-135 | different tags give different image names |
| Deploy.FirstReady | ecs-deploy.rb:45-52 | the first poll that yields an address; every earlier poll yields none, and None means no poll does |
| Deploy.ReadyIp | ecs-deploy.rb:45-52 | the loop ends with an address exactly when some poll yields one, and that address is the one the first ready poll's report gives |
| Deploy.ReadyOnSecondPoll | ecs-deploy.rb:44-52 | with reports `[]` and then a privateIPv4Address of 10.0.1.23, the first ready poll is the second and its address is 10.0.1.23 |
| Deploy.NextPoll | ecs-deploy.rb:45-51 | one more poll of a loop without an address ends the loop with that poll's address, if it has one |
| Deploy.StoppedPolling | ecs-deploy.rb:47-52 | when the loop stops, the polls it made give the same answer as the whole run |
| Deploy.EcsDeploy.constructor | ecs-deploy.rb:9-21 | the deployer holds the configuration and the cluster, and has no command yet |
| Deploy.EcsDeploy.ValidateArgs | ecs-deploy.rb:118-126 | accepted exactly when the first argument is `deploy` or `rollback`; the command is recorded either way; `--canary` is recorded only when accepted |
| Deploy.EcsDeploy.ExecCommand | ecs-deploy.rb:23-33 | runs exactly the entry point Dispatch names, and changes nothing when it names none |
| Deploy.EcsDeploy.CanaryDeploy | ecs-deploy.rb:36-56 | aborts with nothing changed when there is no revision or the newest one lacks a value the register call passes on. Otherwise it registers the copy with the new image and runs one canary task of it. Once an address is found, the target group becomes the old set plus (first address, 8000), and exactly one RegisterTarget call is logged, after both. The older revisions and the service are unchanged |
| Deploy.EcsDeploy.LaunchCanary | ecs-deploy.rb:38-41 | the same abort cases; otherwise the new revision is registered, then one running canary task of it is launched, with no address yet, and its fresh ARN is returned |
| Deploy.EcsDeploy.WaitForPrivateIp | ecs-deploy.rb:44-52 | the loop ends with the address of the first ready poll; the only change is the canary's attachments |
| Deploy.EcsDeploy.Poll | ecs-deploy.rb:46 | one scheduler report, then the address read back from the task's description equals the one in that report |
| Deploy.EcsDeploy.CanaryRollback | ecs-deploy.rb:59-64 | without a canary, aborts with nothing changed. Otherwise it removes the canary as RemoveCanaryTask does, then deregisters exactly the canary's revision; the service is unchanged |
| Deploy.EcsDeploy.Deploy | ecs-deploy.rb:67-74 | without a canary, aborts with nothing changed. Otherwise it updates the service to the canary's revision, then deregisters the canary's (ip, 8000) and stops it; the revisions are unchanged |
| Deploy.EcsDeploy.Rollback | ecs-deploy.rb:77-84 | the newest revision is deregistered and the list loses exactly its head; the service then moves to the next revision, or stays put when there is none |
| Deploy.EcsDeploy.GetLatestTaskDefinition | ecs-deploy.rb:153-163 | nil exactly when no revision is active, otherwise the newest one |
| Deploy.EcsDeploy.UpdateTaskDefinition | ecs-deploy.rb:177-203 | aborts with nothing changed when there is no revision, or when the newest one lacks a task role, execution role, network mode, cpu, memory or compatibility. Otherwise its image-overridden copy becomes the newest revision and is returned |
| Deploy.EcsDeploy.GetTaskArn | ecs-deploy.rb:264-269 | the ARN of the first running task with the tag, nil when there is none |
| Deploy.EcsDeploy.GetTaskDefinitionArn | ecs-deploy.rb:173-175 | the revision the task runs |
| Deploy.EcsDeploy.GetTaskPrivateIp | ecs-deploy.rb:279-290 | the address carried by the task's current attachments |
| Deploy.EcsDeploy.AddTaskToTargetGroup | ecs-deploy.rb:292-298 | registers (ip, 8000); a nil ip changes nothing |
| Deploy.EcsDeploy.RemoveTaskFromTargetGroup | ecs-deploy.rb:300-306 | deregisters (ip, 8000); a nil ip changes nothing |
| Deploy.EcsDeploy.RemoveCanaryTask | ecs-deploy.rb:255-262 | without a canary it fails with nothing changed. Otherwise it deregisters the canary's address, then stops it, and returns its revision; nothing else changes |
| Deploy.Run | ecs-deploy.rb:309-310 | a refused command line aborts before any cluster change; an accepted one runs exactly the entry point it names |
| Deploy.CanaryDeployScenario | ecs-deploy.rb:36-56 | on a one-revision family whose task reports `[]` and then 10.0.1.23, the canary deploy completes. The target group is exactly (10.0.1.23, 8000), that registration is the last call, the new revision heads the list and the service is unchanged |

## Left out

- Shell-outs and JSON: the `aws`, `docker` and `git` commands and the JSON text they print are not modelled. Each call is its effect on `Cluster.Cluster`, and each parsed response is a datatype with the fields the script reads.
- Configuration and login: loading the environment YAML file, `set_instance_variables` and `login_aws` are left out. That includes the missing-file error. The configuration is a `Deploy.Config` value.
- `push_latest_image`: the docker build, tag and push, the timestamp and the git-hash tag are left out, because they are I/O and the clock. The tag is a parameter of `CanaryDeploy`, and `ImageName` is what the script returns from it.
- Console output and `sleep`: `puts`, `show_commands` and `sleep(1)` between polls have no effect on the state and are left out.
- Deploy.EcsDeploy.WaitForPrivateIp: the script polls forever. The model takes a finite sequence of scheduler reports, one before each poll. When none yields an address, `CanaryDeploy` ends `StillPolling` without registering a target.
- Remote failures: the backend may reject a call for reasons not modelled here, such as permissions, a missing service configuration or a full cluster. Such calls are left out.
- Deploy.EcsDeploy.GetTaskDefinitionArn and Deploy.EcsDeploy.GetTaskPrivateIp require that the cluster knows the task. When no canary runs, `get_task_arn` is nil, and `deploy` (ecs-deploy.rb:69-70) and `remove_canary_task` (ecs-deploy.rb:257-258) describe a nil task. That `JSON.parse` raises outside the `rescue` (ecs-deploy.rb:276, 280). The callers `Deploy` and `RemoveCanaryTask` model that path: they stop with `EmptyResponse` before any change. The two helpers are only reached with a task the cluster knows.
- Deregistration is visible at once: the next `list-task-definitions` no longer lists the revision. `rollback` relies on this when it lists again at ecs-deploy.rb:81. Listing lag in the backend is not modelled.
- `volumes` is always present in the model's descriptions and is passed on as text. A missing one would be passed as `null`, which is not modelled.
- `run_task` reads the service's network configuration (ecs-deploy.rb:232-233). Subnets, security groups and launch type are not part of the model.
- `update_task_definition` overwrites the image inside the parsed hash it is iterating over. That in-place update is not observable afterwards, so the new list is modelled as a value.
- Task-definition fields that `register-task-definition` is not given, and the JSON encodings of volumes and containers, are not modelled. Volumes and container settings are text.
- `list-tasks` is modelled as listing tasks in launch order.
