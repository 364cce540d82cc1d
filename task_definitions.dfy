/** Task-definition revisions and the image-override rewrite that `update_task_definition`
    applies to a revision's container definitions (ecs-deploy.rb:177-203). */
module TaskDefinitions {
  import opened Wrappers

  /** The identifier of one revision of a task-definition family; revision numbers grow
      with every registration and are never reused. */
  datatype TaskDefId = TaskDefId(family: string, revision: nat)

  /** One container definition: its name, its image reference, and every other key of the
      parsed definition (cpu, memory, port mappings, environment, ...) as opaque text. */
  datatype Container = Container(name: string, image: string, settings: map<string, string>)

  /** The fields of a described task definition that the script reads back when it
      registers a new revision. A key the description may lack is an Option. */
  datatype TaskDefinition = TaskDefinition(
    family: string,
    containers: seq<Container>,
    taskRoleArn: Option<string>,
    executionRoleArn: Option<string>,
    networkMode: Option<string>,
    volumes: string,
    cpu: Option<string>,
    memory: Option<string>,
    requiresCompatibilities: seq<string>)

  /** Every value that ecs-deploy.rb:190-196 interpolates into `register-task-definition`
      is present. A nil one becomes an empty word, the CLI refuses the command line, and
      `JSON.parse` of its empty output raises (ecs-deploy.rb:199). */
  predicate Registrable(base: TaskDefinition)
  {
    && base.taskRoleArn.Some?
    && base.executionRoleArn.Some?
    && base.networkMode.Some?
    && base.cpu.Some?
    && base.memory.Some?
    && |base.requiresCompatibilities| > 0
  }

  /** The container list with `image` set on every container called `containerName`
      (ecs-deploy.rb:182-186); the specification of OverrideContainerImages. */
  function ImageOverride(containers: seq<Container>, containerName: string, image: string): (r: seq<Container>)
    ensures |r| == |containers|
    ensures forall i :: 0 <= i < |r| ==>
      r[i].name == containers[i].name && r[i].settings == containers[i].settings
    ensures forall i :: 0 <= i < |r| ==>
      r[i].image == if containers[i].name == containerName then image else containers[i].image
  {
    if containers == [] then []
    else
      var head := containers[0];
      var rest := ImageOverride(containers[1..], containerName, image);
      var r := [if head.name == containerName then head.(image := image) else head] + rest;
      assert forall i :: 0 < i < |r| ==> r[i] == rest[i - 1] && containers[i] == containers[1..][i - 1];
      r
  }

  /** The loop of ecs-deploy.rb:182-186: walk the container definitions in order, set the
      image of the one(s) named `containerName`, and append each to the new list. */
  method OverrideContainerImages(containers: seq<Container>, containerName: string, image: string)
    returns (rewritten: seq<Container>)
    ensures rewritten == ImageOverride(containers, containerName, image)
  {
    rewritten := [];
    for i := 0 to |containers|
      invariant |rewritten| == i
      invariant forall k :: 0 <= k < i ==>
        rewritten[k] == if containers[k].name == containerName then containers[k].(image := image) else containers[k]
    {
      var container := containers[i];
      if container.name == containerName {
        container := container.(image := image);
      }
      rewritten := rewritten + [container];
    }
  }

  /** Overriding twice with the same image changes nothing more. */
  lemma OverrideIdempotent(containers: seq<Container>, containerName: string, image: string)
    ensures ImageOverride(ImageOverride(containers, containerName, image), containerName, image)
         == ImageOverride(containers, containerName, image)
  {
  }

  /** A later override of the same container wins over an earlier one. */
  lemma OverrideLastWins(containers: seq<Container>, containerName: string, first: string, second: string)
    ensures ImageOverride(ImageOverride(containers, containerName, first), containerName, second)
         == ImageOverride(containers, containerName, second)
  {
  }

  /** When no container carries the configured name the override is the identity. */
  lemma OverrideWithoutMatchIsIdentity(containers: seq<Container>, containerName: string, image: string)
    requires forall i :: 0 <= i < |containers| ==> containers[i].name != containerName
    ensures ImageOverride(containers, containerName, image) == containers
  {
  }

  /** The definition passed to `register-task-definition` (ecs-deploy.rb:188-197): the
      configured family, the rewritten containers, the roles, network mode, volumes, cpu and
      memory of the base revision, and only the FIRST of its required compatibilities. */
  function RegisteredCopy(base: TaskDefinition, family: string, containers: seq<Container>): (r: TaskDefinition)
    requires Registrable(base)
    ensures r.family == family && r.containers == containers
    ensures r.requiresCompatibilities == [base.requiresCompatibilities[0]]
    ensures r.(family := base.family, containers := base.containers,
               requiresCompatibilities := base.requiresCompatibilities) == base
  {
    base.(family := family, containers := containers,
          requiresCompatibilities := [base.requiresCompatibilities[0]])
  }

  /** A base revision with a single compatibility whose family is the configured one comes
      back from the override unchanged except for the image of the named container. */
  lemma RegisteredCopyChangesOnlyImage(base: TaskDefinition, containerName: string, image: string)
    requires Registrable(base) && |base.requiresCompatibilities| == 1
    ensures var r := RegisteredCopy(base, base.family, ImageOverride(base.containers, containerName, image));
      && r.(containers := base.containers) == base
      && forall i :: 0 <= i < |r.containers| && r.containers[i].name != containerName ==>
           r.containers[i] == base.containers[i]
  {
  }
}
