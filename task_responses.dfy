/** The parsed output of `aws ecs describe-tasks` as far as the script reads it, and the
    private-IP extraction of `get_task_private_ip` (ecs-deploy.rb:279-290). A JSON key that
    may be absent is an Option; Ruby's `nil` is None. */
module TaskResponses {
  import opened Wrappers
  import opened TaskDefinitions

  /** The name of the network-attachment detail that carries the task's private address. */
  const PRIVATE_IP_DETAIL := "privateIPv4Address"

  /** One `{name, value}` entry of an attachment's `details`. */
  datatype Detail = Detail(name: Option<string>, value: Option<string>)

  /** One network attachment of a task. */
  datatype Attachment = Attachment(details: Option<seq<Detail>>)

  /** One element of the response's `tasks`. */
  datatype TaskInfo = TaskInfo(taskDefinitionArn: TaskDefId, attachments: Option<seq<Attachment>>)

  /** The whole parsed `describe-tasks` response. */
  datatype TaskDescription = TaskDescription(tasks: Option<seq<TaskInfo>>)

  /** `details.select {|e| e["name"] == name}`: the details called `name`, in order. */
  function Named(details: seq<Detail>, name: string): (r: seq<Detail>)
    ensures |r| <= |details|
    ensures forall d :: d in r <==> d in details && d.name == Some(name)
  {
    if details == [] then []
    else if details[0].name == Some(name) then [details[0]] + Named(details[1..], name)
    else Named(details[1..], name)
  }

  /** `ip_info[0]["value"]`, or nil when no detail is called privateIPv4Address
      (ecs-deploy.rb:284-285; indexing the nil first match raises, and the rescue yields nil). */
  function DetailsIp(details: seq<Detail>): (ip: Option<string>)
    ensures ip.Some? ==>
      exists d :: d in details && d.name == Some(PRIVATE_IP_DETAIL) && d.value == ip
  {
    var matching := Named(details, PRIVATE_IP_DETAIL);
    if |matching| == 0 then None else matching[0].value
  }

  /** `attachments[0]["details"]` and the lookup above, nil at any missing level. */
  function AttachmentsIp(attachments: Option<seq<Attachment>>): (ip: Option<string>)
    ensures ip.Some? ==>
      && attachments.Some? && |attachments.value| > 0
      && attachments.value[0].details.Some?
      && ip == DetailsIp(attachments.value[0].details.value)
    ensures attachments.Some? && |attachments.value| > 0 && attachments.value[0].details.Some? ==>
      ip == DetailsIp(attachments.value[0].details.value)
  {
    match attachments
    case None => None
    case Some(list) =>
      if |list| == 0 then None
      else match list[0].details
        case None => None
        case Some(details) => DetailsIp(details)
  }

  /** The body of `get_task_private_ip` after the describe call: reads the first task's first
      attachment's details, and is nil whenever a level of that path is missing. */
  function TaskPrivateIp(description: TaskDescription): (ip: Option<string>)
    ensures description.tasks.None? ==> ip.None?
    ensures description.tasks.Some? && |description.tasks.value| == 0 ==> ip.None?
    ensures description.tasks.Some? && |description.tasks.value| > 0 ==>
      ip == AttachmentsIp(description.tasks.value[0].attachments)
  {
    match description.tasks
    case None => None
    case Some(tasks) => if |tasks| == 0 then None else AttachmentsIp(tasks[0].attachments)
  }

  /** The first detail called `name` leads the selection. */
  lemma {:induction false} NamedStartsWithFirstMatch(details: seq<Detail>, name: string, i: nat)
    requires i < |details| && details[i].name == Some(name)
    requires forall j :: 0 <= j < i ==> details[j].name != Some(name)
    ensures |Named(details, name)| > 0 && Named(details, name)[0] == details[i]
  {
    if i > 0 {
      NamedStartsWithFirstMatch(details[1..], name, i - 1);
    }
  }

  /** The extracted address is the value of the FIRST detail called privateIPv4Address;
      later details of that name are ignored. */
  lemma DetailsIpIsFirstMatch(details: seq<Detail>, i: nat)
    requires i < |details| && details[i].name == Some(PRIVATE_IP_DETAIL)
    requires forall j :: 0 <= j < i ==> details[j].name != Some(PRIVATE_IP_DETAIL)
    ensures DetailsIp(details) == details[i].value
  {
    NamedStartsWithFirstMatch(details, PRIVATE_IP_DETAIL, i);
  }

  /** Without a detail called privateIPv4Address there is no address. */
  lemma DetailsIpAbsent(details: seq<Detail>)
    requires forall j :: 0 <= j < |details| ==> details[j].name != Some(PRIVATE_IP_DETAIL)
    ensures DetailsIp(details).None?
  {
  }

  /** The only way to get an address: a first task whose first attachment has details, the
      first of them named privateIPv4Address carrying a value. */
  lemma TaskPrivateIpPath(description: TaskDescription)
    requires TaskPrivateIp(description).Some?
    ensures description.tasks.Some? && |description.tasks.value| > 0
    ensures var attachments := description.tasks.value[0].attachments;
      && attachments.Some? && |attachments.value| > 0
      && attachments.value[0].details.Some?
      && exists d :: d in attachments.value[0].details.value && d.name == Some(PRIVATE_IP_DETAIL)
                   && d.value == TaskPrivateIp(description)
  {
  }

  /** `select` is a filter: selecting from two runs of details is selecting from each. */
  lemma {:induction false} NamedDistributes(a: seq<Detail>, b: seq<Detail>, name: string)
    ensures Named(a + b, name) == Named(a, name) + Named(b, name)
  {
    if a == [] {
      assert a + b == b;
    } else {
      assert (a + b)[1..] == a[1..] + b;
      NamedDistributes(a[1..], b, name);
    }
  }
}
