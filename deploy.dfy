/** The deployment orchestrator, class `ECSDeploy` of ecs-deploy.rb: the command-line
    check, the dispatch, the four entry points and the helpers they share, each a
    sequence of effects on the Cluster object in the order the script issues its CLI calls. */
module Deploy {
  import opened Wrappers
  import opened TaskDefinitions
  import opened TaskResponses
  import opened Cluster
  import opened Cli

  /** The `startedBy` tag that marks the canary task (ecs-deploy.rb:7). */
  const CANARY_STARTED_BY_TAG := "canary"
  /** The port every target-group registration uses (ecs-deploy.rb:296, 304). */
  const TARGET_PORT := 8000
  /** The `--max-items` of the revision listing (ecs-deploy.rb:157). */
  const MAX_LISTED_DEFINITIONS := 5

  /** The read-only configuration the script loads from its environment file. */
  datatype Config = Config(family: string, containerName: string, ecrUrl: string, ecrName: string)

  /** Why a run stops early: the command line was refused, or a CLI call printed nothing
      (it was given a nil argument) and `JSON.parse` raised on the empty output. */
  datatype StopReason = UsageError | EmptyResponse

  /** How an entry point ends. StillPolling: every poll given was answered without an
      address, where the script would go on polling. */
  datatype Outcome = Completed | StillPolling | Aborted(reason: StopReason)

  /** `get_ecr_image_name(tag)` (ecs-deploy.rb:133-135): the repository, a colon, the tag. */
  function ImageName(config: Config, tag: string): (name: string)
    ensures var repository := config.ecrUrl + "/" + config.ecrName;
      && |name| == |repository| + 1 + |tag|
      && name[..|repository|] == repository
      && name[|repository|] == ':'
      && name[|repository| + 1..] == tag
  {
    config.ecrUrl + "/" + config.ecrName + ":" + tag
  }

  /** The image name determines the tag it was built from. */
  lemma ImageNameDeterminesTag(config: Config, tag1: string, tag2: string)
    requires ImageName(config, tag1) == ImageName(config, tag2)
    ensures tag1 == tag2
  {
  }

  /** The first poll whose report yields an address: the specification of the readiness
      loop of ecs-deploy.rb:45-52. */
  function FirstReady(polls: seq<Option<seq<Attachment>>>): (r: Option<nat>)
    ensures r.Some? ==> r.value < |polls| && AttachmentsIp(polls[r.value]).Some?
    ensures r.Some? ==> forall j :: 0 <= j < r.value ==> AttachmentsIp(polls[j]).None?
    ensures r.None? ==> forall j :: 0 <= j < |polls| ==> AttachmentsIp(polls[j]).None?
  {
    if polls == [] then None
    else if AttachmentsIp(polls[0]).Some? then Some(0)
    else match FirstReady(polls[1..])
      case None => None
      case Some(k) => Some(k + 1)
  }

  /** The address the readiness loop ends with: that of the first ready poll. */
  function ReadyIp(polls: seq<Option<seq<Attachment>>>): (ip: Option<string>)
    ensures ip.Some? <==> FirstReady(polls).Some?
    ensures ip.Some? ==> ip == AttachmentsIp(polls[FirstReady(polls).value])
  {
    match FirstReady(polls)
    case None => None
    case Some(k) => AttachmentsIp(polls[k])
  }

  /** The last report the readiness loop observes: the first ready one, else the last
      one, else what the task had before any poll. */
  function LastReport(polls: seq<Option<seq<Attachment>>>, initial: Option<seq<Attachment>>)
    : (report: Option<seq<Attachment>>)
  {
    match FirstReady(polls)
    case Some(k) => polls[k]
    case None => if |polls| == 0 then initial else polls[|polls| - 1]
  }

  /** One more poll of a loop that has not seen an address yet. */
  lemma NextPoll(polls: seq<Option<seq<Attachment>>>, polled: nat, initial: Option<seq<Attachment>>)
    requires polled < |polls| && ReadyIp(polls[..polled]).None?
    ensures ReadyIp(polls[..polled + 1]) == AttachmentsIp(polls[polled])
    ensures LastReport(polls[..polled + 1], initial) == polls[polled]
  {
  }

  /** When the loop stops, its prefix gives the same answers as the whole run. */
  lemma StoppedPolling(polls: seq<Option<seq<Attachment>>>, polled: nat, initial: Option<seq<Attachment>>)
    requires polled <= |polls|
    requires polled == |polls| || (polled > 0 && ReadyIp(polls[..polled]).Some?)
    ensures ReadyIp(polls[..polled]) == ReadyIp(polls)
    ensures LastReport(polls[..polled], initial) == LastReport(polls, initial)
  {
  }

  /** A task that first reports no attachment and then one whose details carry
      privateIPv4Address 10.0.1.23 is ready at the second poll, with that address. */
  lemma ReadyOnSecondPoll()
    ensures var polls := [Some([]), Some([Attachment(Some([Detail(Some(PRIVATE_IP_DETAIL), Some("10.0.1.23"))]))])];
      FirstReady(polls) == Some(1) && ReadyIp(polls) == Some("10.0.1.23")
  {
    var polls := [Some([]), Some([Attachment(Some([Detail(Some(PRIVATE_IP_DETAIL), Some("10.0.1.23"))]))])];
    assert AttachmentsIp(polls[0]).None?;
    assert AttachmentsIp(polls[1]) == Some("10.0.1.23");
  }

  /** The target-group call of `remove_task_from_target_group`; none when the ip is nil. */
  function Deregistration(ip: Option<string>): (r: seq<Call>)
  {
    if ip.Some? then [Call.DeregisterTarget(Target(ip.value, TARGET_PORT))] else []
  }

  /** The target group after `remove_task_from_target_group`. */
  function TargetsWithout(targets: set<Target>, ip: Option<string>): (r: set<Target>)
  {
    if ip.Some? then targets - {Target(ip.value, TARGET_PORT)} else targets
  }

  /** The calls of `remove_canary_task` for canary task `t`, in order. */
  function RemovalCalls(t: Task): (r: seq<Call>)
  {
    Deregistration(AttachmentsIp(t.attachments)) + [Call.StopTask(t.arn)]
  }

  /** The newest revision can be copied into a new one: there is a newest revision, and
      its description has every value the register call passes on. */
  ghost predicate CanLaunch(before: ClusterState)
  {
    && before.revisions != []
    && before.revisions[0] in before.definitions
    && Registrable(before.definitions[before.revisions[0]])
  }

  /** The cluster after `update_task_definition(image)` (ecs-deploy.rb:177-203): the copy
      of the newest revision, with `image` on the configured container, registered under the
      configured family as the new newest revision. */
  ghost function Registered(before: ClusterState, config: Config, image: string): (after: ClusterState)
    requires CanLaunch(before)
  {
    var base := before.definitions[before.revisions[0]];
    var id := TaskDefId(config.family, before.nextRevision);
    var containers := ImageOverride(base.containers, config.containerName, image);
    before.(
      revisions := [id] + before.revisions,
      definitions := before.definitions[id := RegisteredCopy(base, config.family, containers)],
      nextRevision := before.nextRevision + 1,
      calls := before.calls + [Call.RegisterTaskDefinition(id)])
  }

  /** The cluster after the first half of `canary_deploy` (ecs-deploy.rb:38-40): the new
      revision of Registered, and one canary task of it running, whose attachments the
      scheduler last reported as `seen`. */
  ghost function Launched(before: ClusterState, config: Config, image: string,
                          seen: Option<seq<Attachment>>): (after: ClusterState)
    requires CanLaunch(before)
  {
    var registered := Registered(before, config, image);
    var id := TaskDefId(config.family, before.nextRevision);
    var arn := TaskArn(before.nextTaskSerial);
    registered.(
      tasks := before.tasks + [Task(arn, CANARY_STARTED_BY_TAG, id, seen, true)],
      nextTaskSerial := before.nextTaskSerial + 1,
      calls := registered.calls + [Call.RunTask(arn, id, CANARY_STARTED_BY_TAG)])
  }

  /** Effect of `canary_deploy` (ecs-deploy.rb:36-56, 177-203). */
  twostate predicate CanaryDeployed(cluster: Cluster, config: Config, tag: string,
                                    polls: seq<Option<seq<Attachment>>>, outcome: Outcome)
    reads cluster
  {
    if !CanLaunch(old(cluster.State())) then
      outcome == Aborted(EmptyResponse) && cluster.State() == old(cluster.State())
    else
      var launched := Launched(old(cluster.State()), config, ImageName(config, tag), LastReport(polls, Some([])));
      match FirstReady(polls)
      case None =>
        outcome == StillPolling && cluster.State() == launched
      case Some(k) =>
        var target := Target(AttachmentsIp(polls[k]).value, TARGET_PORT);
        && outcome == Completed
        && cluster.State() == launched.(
             targets := old(cluster.targets) + {target},
             calls := launched.calls + [Call.RegisterTarget(target)])
  }

  /** Effect of `remove_canary_task` (ecs-deploy.rb:255-262). */
  twostate predicate CanaryRemoved(cluster: Cluster, new r: Result<TaskDefId, StopReason>)
    reads cluster
  {
    match FirstRunningWith(old(cluster.tasks), CANARY_STARTED_BY_TAG)
    case None => r == Failure(EmptyResponse) && cluster.State() == old(cluster.State())
    case Some(i) =>
      var t := old(cluster.tasks)[i];
      && r == Success(t.definition)
      && cluster.State() == old(cluster.State()).(
           tasks := old(cluster.tasks)[i := t.(desiredRunning := false)],
           targets := TargetsWithout(old(cluster.targets), AttachmentsIp(t.attachments)),
           calls := old(cluster.calls) + RemovalCalls(t))
  }

  /** Effect of `canary_rollback` (ecs-deploy.rb:59-64). */
  twostate predicate CanaryRolledBack(cluster: Cluster, outcome: Outcome)
    reads cluster
  {
    match FirstRunningWith(old(cluster.tasks), CANARY_STARTED_BY_TAG)
    case None => outcome == Aborted(EmptyResponse) && cluster.State() == old(cluster.State())
    case Some(i) =>
      var t := old(cluster.tasks)[i];
      && outcome == Completed
      && cluster.State() == old(cluster.State()).(
           tasks := old(cluster.tasks)[i := t.(desiredRunning := false)],
           targets := TargetsWithout(old(cluster.targets), AttachmentsIp(t.attachments)),
           revisions := Without(old(cluster.revisions), t.definition),
           calls := old(cluster.calls) + RemovalCalls(t) + [Call.DeregisterTaskDefinition(t.definition)])
  }

  /** Effect of `deploy`, the promotion of the canary (ecs-deploy.rb:67-74). */
  twostate predicate Promoted(cluster: Cluster, outcome: Outcome)
    reads cluster
  {
    match FirstRunningWith(old(cluster.tasks), CANARY_STARTED_BY_TAG)
    case None => outcome == Aborted(EmptyResponse) && cluster.State() == old(cluster.State())
    case Some(i) =>
      var t := old(cluster.tasks)[i];
      && outcome == Completed
      && cluster.State() == old(cluster.State()).(
           service := t.definition,
           tasks := old(cluster.tasks)[i := t.(desiredRunning := false)],
           targets := TargetsWithout(old(cluster.targets), AttachmentsIp(t.attachments)),
           calls := old(cluster.calls) + [Call.UpdateService(t.definition)] + RemovalCalls(t))
  }

  /** Effect of `rollback` (ecs-deploy.rb:77-84). */
  twostate predicate RolledBack(cluster: Cluster, outcome: Outcome)
    reads cluster
  {
    && outcome == Completed
    && if old(cluster.revisions) == [] then cluster.State() == old(cluster.State())
       else
         var revisions := old(cluster.revisions);
         cluster.State() == old(cluster.State()).(
           revisions := revisions[1..],
           service := if |revisions| > 1 then revisions[1] else old(cluster.service),
           calls := old(cluster.calls) + [Call.DeregisterTaskDefinition(revisions[0])]
                    + (if |revisions| > 1 then [Call.UpdateService(revisions[1])] else []))
  }

  /** Effect of one entry point. */
  twostate predicate Ran(cluster: Cluster, config: Config, entry: EntryPoint, tag: string,
                         polls: seq<Option<seq<Attachment>>>, outcome: Outcome)
    reads cluster
    requires old(cluster.Valid())
  {
    match entry
    case CanaryDeploy => CanaryDeployed(cluster, config, tag, polls, outcome)
    case CanaryRollback => CanaryRolledBack(cluster, outcome)
    case Deploy => Promoted(cluster, outcome)
    case Rollback => RolledBack(cluster, outcome)
  }

  class EcsDeploy {
    const config: Config
    const cluster: Cluster
    var command: Option<string>
    var isCanary: bool

    ghost predicate Valid()
      reads cluster
    {
      cluster.Valid() && cluster.family == config.family
    }

    constructor (config: Config, cluster: Cluster)
      ensures this.config == config && this.cluster == cluster
      ensures command.None? && !isCanary
    {
      this.config := config;
      this.cluster := cluster;
      command := None;
      isCanary := false;
    }

    /** `validate_args`: records the first argument, refuses anything but `deploy` or
        `rollback`, and only then records whether `--canary` was given. */
    method ValidateArgs(argv: seq<string>) returns (accepted: bool)
      modifies this
      ensures accepted <==> ValidCommand(argv)
      ensures command == CommandOf(argv)
      ensures isCanary == if accepted then HasCanaryFlag(argv) else old(isCanary)
    {
      command := CommandOf(argv);
      if command != Some(DEPLOY) && command != Some(ROLLBACK) {
        return false;
      }
      isCanary := HasCanaryFlag(argv);
      accepted := true;
    }

    /** `exec_command`: runs the entry point `Dispatch` names, and none when it names none. */
    method ExecCommand(tag: string, polls: seq<Option<seq<Attachment>>>) returns (outcome: Outcome)
      requires Valid()
      modifies cluster
      ensures Valid()
      ensures match Dispatch(command, isCanary)
        case None => outcome == Completed && cluster.State() == old(cluster.State())
        case Some(entry) => Ran(cluster, config, entry, tag, polls, outcome)
    {
      if command == Some(DEPLOY) && isCanary {
        outcome := CanaryDeploy(tag, polls);
      } else if command == Some(ROLLBACK) && isCanary {
        outcome := CanaryRollback();
      } else if command == Some(DEPLOY) && !isCanary {
        outcome := Deploy();
      } else if command == Some(ROLLBACK) && !isCanary {
        outcome := Rollback();
      } else {
        outcome := Completed;
      }
    }

    /** `canary_deploy`: a new revision with the image of `tag`, one canary task running it,
        polling until an address appears, then that address registered on port 8000. */
    method CanaryDeploy(tag: string, polls: seq<Option<seq<Attachment>>>) returns (outcome: Outcome)
      requires Valid()
      modifies cluster
      ensures Valid()
      ensures CanaryDeployed(cluster, config, tag, polls, outcome)
    {
      var image := ImageName(config, tag);
      var launched := LaunchCanary(image);
      if launched.Failure? {
        return Aborted(launched.error);
      }
      ReportedLast(old(cluster.tasks), cluster.tasks[|cluster.tasks| - 1], LastReport(polls, Some([])));
      var privateIp := WaitForPrivateIp(launched.value, polls);
      if privateIp.None? {
        return StillPolling;
      }
      AddTaskToTargetGroup(privateIp);
      outcome := Completed;
    }

    /** `update_task_definition(image)` followed by `run_task` with the canary tag
        (ecs-deploy.rb:39-41): the new revision and the one task launched from it. */
    method LaunchCanary(image: string) returns (r: Result<TaskArn, StopReason>)
      requires Valid()
      modifies cluster
      ensures Valid()
      ensures !CanLaunch(old(cluster.State())) ==>
        r == Failure(EmptyResponse) && cluster.State() == old(cluster.State())
      ensures CanLaunch(old(cluster.State())) ==>
        && r == Success(TaskArn(old(cluster.nextTaskSerial)))
        && cluster.State() == Launched(old(cluster.State()), config, image, Some([]))
        && IndexOf(cluster.tasks, r.value) == Some(|cluster.tasks| - 1)
    {
      var registered := UpdateTaskDefinition(image);
      if registered.Failure? {
        return Failure(registered.error);
      }
      var taskArn := cluster.RunTask(registered.value, CANARY_STARTED_BY_TAG);
      IndexOfOwnArn(cluster.tasks, |cluster.tasks| - 1);
      r := Success(taskArn);
    }

    /** The readiness loop of `canary_deploy` (ecs-deploy.rb:45-52) over a finite run of
        scheduler reports: before each poll the scheduler reports the task's attachments,
        and the loop stops at the first poll whose description yields an address. */
    method WaitForPrivateIp(taskArn: TaskArn, polls: seq<Option<seq<Attachment>>>)
      returns (privateIp: Option<string>)
      requires Valid() && cluster.Knows(taskArn)
      modifies cluster
      ensures Valid()
      ensures privateIp == ReadyIp(polls)
      ensures var i := IndexOf(old(cluster.tasks), taskArn).value;
        cluster.State() == old(cluster.State()).(
          tasks := Reported(old(cluster.tasks), i, LastReport(polls, old(cluster.tasks)[i].attachments)))
    {
      ghost var before := cluster.State();
      ghost var i := IndexOf(cluster.tasks, taskArn).value;
      ghost var initial := before.tasks[i].attachments;
      privateIp := None;
      var polled := 0;
      while polled < |polls| && privateIp.None?
        invariant 0 <= polled <= |polls|
        invariant Valid() && IndexOf(cluster.tasks, taskArn) == Some(i)
        invariant cluster.State() == before.(tasks := Reported(before.tasks, i, LastReport(polls[..polled], initial)))
        invariant privateIp == ReadyIp(polls[..polled])
      {
        privateIp := Poll(taskArn, polls[polled]);
        ReportedTwice(before.tasks, i, LastReport(polls[..polled], initial), polls[polled]);
        NextPoll(polls, polled, initial);
        polled := polled + 1;
      }
      StoppedPolling(polls, polled, initial);
    }

    /** One pass of the readiness loop: the scheduler reports the task's attachments, and
        `get_task_private_ip` reads the address back from the task's description. */
    method Poll(taskArn: TaskArn, report: Option<seq<Attachment>>) returns (privateIp: Option<string>)
      requires Valid() && cluster.Knows(taskArn)
      modifies cluster
      ensures Valid() && cluster.Knows(taskArn)
      ensures IndexOf(cluster.tasks, taskArn) == IndexOf(old(cluster.tasks), taskArn)
      ensures privateIp == AttachmentsIp(report)
      ensures var i := IndexOf(old(cluster.tasks), taskArn).value;
        cluster.State() == old(cluster.State()).(tasks := Reported(old(cluster.tasks), i, report))
    {
      ghost var i := IndexOf(cluster.tasks, taskArn).value;
      cluster.Provision(taskArn, report);
      IndexOfOwnArn(cluster.tasks, i);
      privateIp := GetTaskPrivateIp(taskArn);
    }

    /** `canary_rollback`: removes the canary task, then deregisters its revision. */
    method CanaryRollback() returns (outcome: Outcome)
      requires Valid()
      modifies cluster
      ensures Valid()
      ensures CanaryRolledBack(cluster, outcome)
    {
      var removed := RemoveCanaryTask();
      if removed.Failure? {
        return Aborted(removed.error);
      }
      cluster.DeregisterTaskDefinition(Some(removed.value));
      outcome := Completed;
    }

    /** `deploy`: promotes the revision the canary task runs, then removes the canary. */
    method Deploy() returns (outcome: Outcome)
      requires Valid()
      modifies cluster
      ensures Valid()
      ensures Promoted(cluster, outcome)
    {
      var taskArn := GetTaskArn(CANARY_STARTED_BY_TAG);
      if taskArn.None? {
        return Aborted(EmptyResponse);
      }
      var definition := GetTaskDefinitionArn(taskArn.value);
      cluster.UpdateService(Some(definition));
      var _ := RemoveCanaryTask();
      outcome := Completed;
    }

    /** `rollback`: deregisters the newest revision, then moves the service to whatever
        revision is newest afterwards. */
    method Rollback() returns (outcome: Outcome)
      requires Valid()
      modifies cluster
      ensures Valid()
      ensures RolledBack(cluster, outcome)
    {
      var latest := GetLatestTaskDefinition();
      cluster.DeregisterTaskDefinition(latest);
      if latest.Some? {
        WithoutNewest(old(cluster.revisions));
      }
      var previous := GetLatestTaskDefinition();
      cluster.UpdateService(previous);
      outcome := Completed;
    }

    /** `get_latest_task_definition` over `get_task_definitions` (ecs-deploy.rb:153-163):
        the head of the newest-first listing, nil when the family has no active revision. */
    function GetLatestTaskDefinition(): (r: Option<TaskDefId>)
      reads cluster
      ensures r.None? <==> cluster.revisions == []
      ensures r.Some? ==> r.value == cluster.revisions[0]
    {
      var listed := cluster.ListTaskDefinitions(MAX_LISTED_DEFINITIONS);
      if |listed| == 0 then None else Some(listed[0])
    }

    /** `update_task_definition(image)`: describes the newest revision, overrides the image
        of the configured container and registers the result as a new revision. */
    method UpdateTaskDefinition(image: string) returns (r: Result<TaskDefId, StopReason>)
      requires Valid()
      modifies cluster
      ensures Valid()
      ensures !CanLaunch(old(cluster.State())) ==>
        r == Failure(EmptyResponse) && cluster.State() == old(cluster.State())
      ensures CanLaunch(old(cluster.State())) ==>
        && r == Success(TaskDefId(config.family, old(cluster.nextRevision)))
        && cluster.State() == Registered(old(cluster.State()), config, image)
    {
      var latest := GetLatestTaskDefinition();
      if latest.None? {
        return Failure(EmptyResponse);
      }
      var base := cluster.DescribeTaskDefinition(latest.value);
      var containers := OverrideContainerImages(base.containers, config.containerName, image);
      if !Registrable(base) {
        return Failure(EmptyResponse);
      }
      var id := cluster.RegisterTaskDefinition(RegisteredCopy(base, config.family, containers));
      r := Success(id);
    }

    /** `get_task_arn(tag)`: the first ARN `list-tasks` gives for the tag. */
    function GetTaskArn(tag: string): (r: Option<TaskArn>)
      reads cluster
      ensures match FirstRunningWith(cluster.tasks, tag)
        case None => r.None?
        case Some(i) => r == Some(cluster.tasks[i].arn)
    {
      var arns := cluster.ListTasks(tag);
      if |arns| == 0 then None else Some(arns[0])
    }

    /** `get_task_definition_arn(arn)`: the revision a known task runs, read back from
        its description. */
    function GetTaskDefinitionArn(arn: TaskArn): (r: TaskDefId)
      reads cluster
      requires cluster.Knows(arn)
      ensures r == cluster.tasks[IndexOf(cluster.tasks, arn).value].definition
    {
      cluster.DescribeTasks(arn).tasks.value[0].taskDefinitionArn
    }

    /** `get_task_private_ip(arn)`: the address in a known task's description. */
    function GetTaskPrivateIp(arn: TaskArn): (r: Option<string>)
      reads cluster
      requires cluster.Knows(arn)
      ensures r == AttachmentsIp(cluster.tasks[IndexOf(cluster.tasks, arn).value].attachments)
    {
      TaskPrivateIp(cluster.DescribeTasks(arn))
    }

    /** `add_task_to_target_group(ip)`. */
    method AddTaskToTargetGroup(ip: Option<string>)
      requires Valid()
      modifies cluster
      ensures Valid()
      ensures ip.Some? ==>
        cluster.State() == old(cluster.State()).(
          targets := old(cluster.targets) + {Target(ip.value, TARGET_PORT)},
          calls := old(cluster.calls) + [Call.RegisterTarget(Target(ip.value, TARGET_PORT))])
      ensures ip.None? ==> cluster.State() == old(cluster.State())
    {
      cluster.RegisterTargets(ip, TARGET_PORT);
    }

    /** `remove_task_from_target_group(ip)`. */
    method RemoveTaskFromTargetGroup(ip: Option<string>)
      requires Valid()
      modifies cluster
      ensures Valid()
      ensures cluster.State() == old(cluster.State()).(
        targets := TargetsWithout(old(cluster.targets), ip),
        calls := old(cluster.calls) + Deregistration(ip))
    {
      cluster.DeregisterTargets(ip, TARGET_PORT);
    }

    /** `remove_canary_task`: finds the canary, deregisters its address, stops it, and
        returns the revision it ran. */
    method RemoveCanaryTask() returns (r: Result<TaskDefId, StopReason>)
      requires Valid()
      modifies cluster
      ensures Valid()
      ensures CanaryRemoved(cluster, r)
    {
      var taskArn := GetTaskArn(CANARY_STARTED_BY_TAG);
      if taskArn.None? {
        return Failure(EmptyResponse);
      }
      ghost var i := FirstRunningWith(cluster.tasks, CANARY_STARTED_BY_TAG).value;
      IndexOfOwnArn(cluster.tasks, i);
      var privateIp := GetTaskPrivateIp(taskArn.value);
      RemoveTaskFromTargetGroup(privateIp);
      cluster.StopTask(taskArn.value);
      IndexOfOwnArn(cluster.tasks, i);
      r := Success(GetTaskDefinitionArn(taskArn.value));
    }
  }

  /** The script from start to end (ecs-deploy.rb:9-10, 309-310): the command line is
      checked before anything touches the cluster, then exactly one entry point runs. */
  method Run(argv: seq<string>, config: Config, cluster: Cluster, tag: string,
             polls: seq<Option<seq<Attachment>>>) returns (outcome: Outcome)
    requires cluster.Valid() && cluster.family == config.family
    modifies cluster
    ensures cluster.Valid()
    ensures !ValidCommand(argv) ==> outcome == Aborted(UsageError) && cluster.State() == old(cluster.State())
    ensures ValidCommand(argv) ==>
      Ran(cluster, config, Dispatch(CommandOf(argv), HasCanaryFlag(argv)).value, tag, polls, outcome)
  {
    var ecs := new EcsDeploy(config, cluster);
    var accepted := ecs.ValidateArgs(argv);
    if !accepted {
      return Aborted(UsageError);
    }
    outcome := ecs.ExecCommand(tag, polls);
  }

  /** `canary_deploy` on a family with one registered revision, while the scheduler first
      reports no attachment and then the address 10.0.1.23: the run completes, the target
      group holds exactly (10.0.1.23, 8000), registered as the last call, the new revision
      heads the list and the service still runs the old one. */
  method CanaryDeployScenario() returns (outcome: Outcome, targets: set<Target>, lastCall: Call,
                                          revisions: seq<TaskDefId>, service: TaskDefId)
    ensures outcome == Completed
    ensures targets == {Target("10.0.1.23", TARGET_PORT)}
    ensures lastCall == Call.RegisterTarget(Target("10.0.1.23", TARGET_PORT))
    ensures revisions == [TaskDefId("web", 2), TaskDefId("web", 1)]
    ensures service == TaskDefId("web", 1)
  {
    var base := TaskDefinition("web", [Container("app", "old", map[])],
                               Some("role"), Some("role"), Some("awsvpc"), "[]",
                               Some("256"), Some("512"), ["FARGATE"]);
    var cluster := new Cluster("web", base);
    var ecs := new EcsDeploy(Config("web", "app", "registry", "app"), cluster);
    var polls := [Some([]), Some([Attachment(Some([Detail(Some(PRIVATE_IP_DETAIL), Some("10.0.1.23"))]))])];
    ReadyOnSecondPoll();
    outcome := ecs.CanaryDeploy("1", polls);
    targets := cluster.targets;
    lastCall := cluster.calls[|cluster.calls| - 1];
    revisions := cluster.revisions;
    service := cluster.service;
  }
}
