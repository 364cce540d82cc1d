/** The remote state the script drives through the `aws` CLI, as one object: the family's
    active task-definition revisions (newest first), every registered definition, the
    tasks, the target group, the service's task definition, and the log of mutating calls
    the backend accepted, in order. Each method is the effect of one CLI call. */
module Cluster {
  import opened Wrappers
  import opened TaskDefinitions
  import opened TaskResponses

  /** A task identifier; the serial is minted by the backend and never reused. */
  datatype TaskArn = TaskArn(serial: nat)

  /** One (ip, port) registration of the target group. */
  datatype Target = Target(ip: string, port: nat)

  /** A task as the scheduler knows it. A stopped task stays describable but is no longer
      listed by `list-tasks`, which only lists tasks whose desired status is RUNNING. */
  datatype Task = Task(
    arn: TaskArn,
    startedBy: string,
    definition: TaskDefId,
    attachments: Option<seq<Attachment>>,
    desiredRunning: bool)

  /** A mutating call the backend accepted. */
  datatype Call =
    | RegisterTaskDefinition(definition: TaskDefId)
    | DeregisterTaskDefinition(definition: TaskDefId)
    | UpdateService(definition: TaskDefId)
    | RunTask(task: TaskArn, definition: TaskDefId, startedBy: string)
    | StopTask(task: TaskArn)
    | RegisterTarget(target: Target)
    | DeregisterTarget(target: Target)

  /** Revision numbers strictly decrease along the list. */
  ghost predicate NewestFirst(revisions: seq<TaskDefId>)
  {
    forall i, j :: 0 <= i < j < |revisions| ==> revisions[i].revision > revisions[j].revision
  }

  /** A revision numbered above every active one may head the list. */
  lemma PrependNewest(revisions: seq<TaskDefId>, id: TaskDefId)
    requires NewestFirst(revisions)
    requires forall x :: x in revisions ==> x.revision < id.revision
    ensures NewestFirst([id] + revisions)
  {
    var r := [id] + revisions;
    assert forall j :: 0 < j < |r| ==> r[j] == revisions[j - 1];
  }

  /** The active list after `id` is deregistered. */
  function Without(revisions: seq<TaskDefId>, id: TaskDefId): (r: seq<TaskDefId>)
    ensures forall x :: x in r <==> x in revisions && x != id
    ensures id !in revisions ==> r == revisions
  {
    if revisions == [] then []
    else if revisions[0] == id then Without(revisions[1..], id)
    else [revisions[0]] + Without(revisions[1..], id)
  }

  /** Deregistering the newest revision leaves exactly the older ones, in order. */
  lemma WithoutNewest(revisions: seq<TaskDefId>)
    requires NewestFirst(revisions) && |revisions| > 0
    ensures Without(revisions, revisions[0]) == revisions[1..]
  {
  }

  /** Deregistering an active revision removes exactly one entry. */
  lemma {:induction false} WithoutRemovesOne(revisions: seq<TaskDefId>, id: TaskDefId)
    requires NewestFirst(revisions) && id in revisions
    ensures |Without(revisions, id)| == |revisions| - 1
  {
    if revisions[0] == id {
      assert id !in revisions[1..];
    } else {
      assert NewestFirst(revisions[1..]);
      WithoutRemovesOne(revisions[1..], id);
    }
  }

  /** Removing entries keeps the order. */
  lemma {:induction false} WithoutKeepsOrder(revisions: seq<TaskDefId>, id: TaskDefId)
    requires NewestFirst(revisions)
    ensures NewestFirst(Without(revisions, id))
  {
    if revisions != [] {
      var tail := revisions[1..];
      assert NewestFirst(tail);
      WithoutKeepsOrder(tail, id);
      if revisions[0] != id {
        assert forall x :: x in tail ==> x.revision < revisions[0].revision;
        PrependNewest(Without(tail, id), revisions[0]);
      }
    }
  }


  /** A task that `list-tasks --started-by tag` lists. */
  predicate RunsWith(t: Task, tag: string)
  {
    t.desiredRunning && t.startedBy == tag
  }

  /** The position of the first listed task started by `tag`. */
  function FirstRunningWith(tasks: seq<Task>, tag: string): (r: Option<nat>)
    ensures r.Some? ==> r.value < |tasks| && RunsWith(tasks[r.value], tag)
    ensures r.Some? ==> forall j :: 0 <= j < r.value ==> !RunsWith(tasks[j], tag)
    ensures r.None? ==> forall j :: 0 <= j < |tasks| ==> !RunsWith(tasks[j], tag)
  {
    if tasks == [] then None
    else if RunsWith(tasks[0], tag) then Some(0)
    else match FirstRunningWith(tasks[1..], tag)
      case None => None
      case Some(k) => Some(k + 1)
  }

  /** `list-tasks --started-by tag`: the ARNs of the listed tasks with that tag, in order. */
  function RunningArns(tasks: seq<Task>, tag: string): (r: seq<TaskArn>)
    ensures |r| == 0 <==> FirstRunningWith(tasks, tag).None?
    ensures |r| > 0 ==> r[0] == tasks[FirstRunningWith(tasks, tag).value].arn
    ensures forall arn :: arn in r <==>
      exists i :: 0 <= i < |tasks| && tasks[i].arn == arn && RunsWith(tasks[i], tag)
  {
    if tasks == [] then []
    else if RunsWith(tasks[0], tag) then [tasks[0].arn] + RunningArns(tasks[1..], tag)
    else RunningArns(tasks[1..], tag)
  }

  /** The position of the first task with that ARN. */
  function IndexOf(tasks: seq<Task>, arn: TaskArn): (r: Option<nat>)
    ensures r.Some? ==> r.value < |tasks| && tasks[r.value].arn == arn
    ensures r.Some? ==> forall j :: 0 <= j < r.value ==> tasks[j].arn != arn
    ensures r.None? ==> forall j :: 0 <= j < |tasks| ==> tasks[j].arn != arn
  {
    if tasks == [] then None
    else if tasks[0].arn == arn then Some(0)
    else match IndexOf(tasks[1..], arn)
      case None => None
      case Some(k) => Some(k + 1)
  }

  ghost predicate DistinctArns(tasks: seq<Task>)
  {
    forall i, j :: 0 <= i < j < |tasks| ==> tasks[i].arn != tasks[j].arn
  }

  /** With distinct ARNs a task is found at its own position. */
  lemma IndexOfOwnArn(tasks: seq<Task>, i: nat)
    requires DistinctArns(tasks) && i < |tasks|
    ensures IndexOf(tasks, tasks[i].arn) == Some(i)
  {
  }

  /** The task list after task `i` reported `report`. */
  function Reported(tasks: seq<Task>, i: nat, report: Option<seq<Attachment>>): (r: seq<Task>)
    requires i < |tasks|
  {
    tasks[i := tasks[i].(attachments := report)]
  }

  /** A later report about a task replaces an earlier one. */
  lemma ReportedTwice(tasks: seq<Task>, i: nat, first: Option<seq<Attachment>>, second: Option<seq<Attachment>>)
    requires i < |tasks|
    ensures Reported(Reported(tasks, i, first), i, second) == Reported(tasks, i, second)
  {
  }

  /** A report about the task launched last replaces only that task's attachments. */
  lemma ReportedLast(tasks: seq<Task>, t: Task, report: Option<seq<Attachment>>)
    ensures Reported(tasks + [t], |tasks|, report) == tasks + [t.(attachments := report)]
  {
  }

  /** A snapshot of every mutable part of the cluster. */
  datatype ClusterState = ClusterState(
    revisions: seq<TaskDefId>,
    definitions: map<TaskDefId, TaskDefinition>,
    nextRevision: nat,
    tasks: seq<Task>,
    nextTaskSerial: nat,
    targets: set<Target>,
    service: TaskDefId,
    calls: seq<Call>)

  class Cluster {
    /** The task-definition family the script manages. */
    const family: string
    var revisions: seq<TaskDefId>
    var definitions: map<TaskDefId, TaskDefinition>
    var nextRevision: nat
    var tasks: seq<Task>
    var nextTaskSerial: nat
    var targets: set<Target>
    var service: TaskDefId
    var calls: seq<Call>

    ghost function State(): ClusterState
      reads this
    {
      ClusterState(revisions, definitions, nextRevision, tasks, nextTaskSerial, targets, service, calls)
    }

    ghost predicate Valid()
      reads this
    {
      && NewestFirst(revisions)
      && (forall id :: id in revisions ==> id in definitions)
      && (forall id :: id in definitions ==>
            id.family == family && id.revision < nextRevision && definitions[id].family == family)
      && service in definitions
      && (forall i :: 0 <= i < |tasks| ==>
            tasks[i].arn.serial < nextTaskSerial && tasks[i].definition in definitions)
      && DistinctArns(tasks)
    }

    /** A cluster whose family has one registered revision, which the service runs. */
    constructor (family: string, initial: TaskDefinition)
      requires initial.family == family
      ensures Valid()
      ensures this.family == family
      ensures revisions == [TaskDefId(family, 1)] && definitions == map[TaskDefId(family, 1) := initial]
      ensures nextRevision == 2 && service == TaskDefId(family, 1)
      ensures tasks == [] && nextTaskSerial == 0 && targets == {} && calls == []
    {
      this.family := family;
      revisions := [TaskDefId(family, 1)];
      definitions := map[TaskDefId(family, 1) := initial];
      nextRevision := 2;
      service := TaskDefId(family, 1);
      tasks := [];
      nextTaskSerial := 0;
      targets := {};
      calls := [];
    }

    /** `list-task-definitions --family-prefix F --sort DESC --max-items n`. */
    function ListTaskDefinitions(maxItems: nat): (r: seq<TaskDefId>)
      reads this
      ensures r <= revisions
      ensures |r| == if |revisions| < maxItems then |revisions| else maxItems
    {
      if |revisions| < maxItems then revisions else revisions[..maxItems]
    }

    /** `describe-task-definition` of a registered revision. */
    function DescribeTaskDefinition(id: TaskDefId): (r: TaskDefinition)
      reads this
      requires id in definitions
      ensures r == definitions[id]
    {
      definitions[id]
    }

    /** `list-tasks --started-by tag`. */
    function ListTasks(tag: string): (r: seq<TaskArn>)
      reads this
      ensures forall arn :: arn in r <==>
        exists i :: 0 <= i < |tasks| && tasks[i].arn == arn && RunsWith(tasks[i], tag)
    {
      RunningArns(tasks, tag)
    }

    /** The backend knows a task with this ARN (running or stopped). */
    predicate Knows(arn: TaskArn)
      reads this
    {
      IndexOf(tasks, arn).Some?
    }

    /** `describe-tasks --tasks arn` of a known task: a response listing that task alone,
        with its definition and its current network attachments. */
    function DescribeTasks(arn: TaskArn): (r: TaskDescription)
      reads this
      requires Knows(arn)
      ensures r.tasks.Some? && |r.tasks.value| == 1
      ensures r.tasks.value[0].taskDefinitionArn == tasks[IndexOf(tasks, arn).value].definition
      ensures TaskPrivateIp(r) == AttachmentsIp(tasks[IndexOf(tasks, arn).value].attachments)
    {
      var t := tasks[IndexOf(tasks, arn).value];
      TaskDescription(Some([TaskInfo(t.definition, t.attachments)]))
    }

    /** `register-task-definition --family F`: a new revision of the family, now its newest. */
    method RegisterTaskDefinition(definition: TaskDefinition) returns (id: TaskDefId)
      requires Valid() && definition.family == family
      modifies this
      ensures Valid()
      ensures id == TaskDefId(family, old(nextRevision)) && id !in old(definitions)
      ensures State() == old(State()).(
        revisions := [id] + old(revisions),
        definitions := old(definitions)[id := definition],
        nextRevision := old(nextRevision) + 1,
        calls := old(calls) + [Call.RegisterTaskDefinition(id)])
    {
      id := TaskDefId(family, nextRevision);
      PrependNewest(revisions, id);
      revisions := [id] + revisions;
      definitions := definitions[id := definition];
      nextRevision := nextRevision + 1;
      calls := calls + [Call.RegisterTaskDefinition(id)];
    }

    /** `deregister-task-definition`: the revision leaves the active list; a missing
        identifier is rejected by the CLI and an unknown one by the backend. */
    method DeregisterTaskDefinition(id: Option<TaskDefId>)
      requires Valid()
      modifies this
      ensures Valid()
      ensures id.Some? && id.value in old(definitions) ==>
        State() == old(State()).(
          revisions := Without(old(revisions), id.value),
          calls := old(calls) + [Call.DeregisterTaskDefinition(id.value)])
      ensures !(id.Some? && id.value in old(definitions)) ==> State() == old(State())
    {
      if id.Some? && id.value in definitions {
        WithoutKeepsOrder(revisions, id.value);
        revisions := Without(revisions, id.value);
        calls := calls + [Call.DeregisterTaskDefinition(id.value)];
      }
    }

    /** `update-service --task-definition id --force-new-deployment`. */
    method UpdateService(id: Option<TaskDefId>)
      requires Valid()
      modifies this
      ensures Valid()
      ensures id.Some? && id.value in old(definitions) ==>
        State() == old(State()).(service := id.value, calls := old(calls) + [Call.UpdateService(id.value)])
      ensures !(id.Some? && id.value in old(definitions)) ==> State() == old(State())
    {
      if id.Some? && id.value in definitions {
        service := id.value;
        calls := calls + [Call.UpdateService(id.value)];
      }
    }

    /** `run-task --started-by tag`: one new running task with no address yet. */
    method RunTask(definition: TaskDefId, startedBy: string) returns (arn: TaskArn)
      requires Valid() && definition in definitions
      modifies this
      ensures Valid()
      ensures arn == TaskArn(old(nextTaskSerial))
      ensures State() == old(State()).(
        tasks := old(tasks) + [Task(arn, startedBy, definition, Some([]), true)],
        nextTaskSerial := old(nextTaskSerial) + 1,
        calls := old(calls) + [Call.RunTask(arn, definition, startedBy)])
    {
      arn := TaskArn(nextTaskSerial);
      tasks := tasks + [Task(arn, startedBy, definition, Some([]), true)];
      nextTaskSerial := nextTaskSerial + 1;
      calls := calls + [Call.RunTask(arn, definition, startedBy)];
    }

    /** The scheduler's progress on a task's network attachment, which the script observes
        between polls; it is no call of the script's. */
    method Provision(arn: TaskArn, attachments: Option<seq<Attachment>>)
      requires Valid() && Knows(arn)
      modifies this
      ensures Valid()
      ensures var i := IndexOf(old(tasks), arn).value;
        State() == old(State()).(tasks := Reported(old(tasks), i, attachments))
    {
      var i := IndexOf(tasks, arn).value;
      tasks := tasks[i := tasks[i].(attachments := attachments)];
    }

    /** `stop-task --task arn`: the task's desired status becomes STOPPED. */
    method StopTask(arn: TaskArn)
      requires Valid() && Knows(arn)
      modifies this
      ensures Valid()
      ensures var i := IndexOf(old(tasks), arn).value;
        State() == old(State()).(
          tasks := old(tasks)[i := old(tasks)[i].(desiredRunning := false)],
          calls := old(calls) + [Call.StopTask(arn)])
    {
      var i := IndexOf(tasks, arn).value;
      tasks := tasks[i := tasks[i].(desiredRunning := false)];
      calls := calls + [Call.StopTask(arn)];
    }

    /** `elbv2 register-targets --targets Id=ip,Port=port`; a nil ip is rejected. */
    method RegisterTargets(ip: Option<string>, port: nat)
      requires Valid()
      modifies this
      ensures Valid()
      ensures ip.Some? ==>
        State() == old(State()).(
          targets := old(targets) + {Target(ip.value, port)},
          calls := old(calls) + [Call.RegisterTarget(Target(ip.value, port))])
      ensures ip.None? ==> State() == old(State())
    {
      if ip.Some? {
        targets := targets + {Target(ip.value, port)};
        calls := calls + [Call.RegisterTarget(Target(ip.value, port))];
      }
    }

    /** `elbv2 deregister-targets --targets Id=ip,Port=port`; a nil ip is rejected. */
    method DeregisterTargets(ip: Option<string>, port: nat)
      requires Valid()
      modifies this
      ensures Valid()
      ensures ip.Some? ==>
        State() == old(State()).(
          targets := old(targets) - {Target(ip.value, port)},
          calls := old(calls) + [Call.DeregisterTarget(Target(ip.value, port))])
      ensures ip.None? ==> State() == old(State())
    {
      if ip.Some? {
        targets := targets - {Target(ip.value, port)};
        calls := calls + [Call.DeregisterTarget(Target(ip.value, port))];
      }
    }
  }
}
