/** The command surface of the script: `validate_args` (ecs-deploy.rb:118-126) accepts
    `deploy` or `rollback` as the first argument and looks for `--canary` anywhere, and
    `exec_command` (ecs-deploy.rb:23-33) picks one of four entry points from the pair. */
module Cli {
  import opened Wrappers

  const DEPLOY := "deploy"
  const ROLLBACK := "rollback"
  const CANARY_FLAG := "--canary"

  datatype EntryPoint = CanaryDeploy | CanaryRollback | Deploy | Rollback
  {
    /** The subcommand that selects this entry point. */
    function Command(): string
    {
      if this == CanaryDeploy || this == Deploy then DEPLOY else ROLLBACK
    }

    /** Whether `--canary` selects it. */
    predicate Canary()
    {
      this == CanaryDeploy || this == CanaryRollback
    }
  }

  /** `ARGV[0]`, nil on an empty command line. */
  function CommandOf(argv: seq<string>): (command: Option<string>)
    ensures command.Some? <==> |argv| > 0
    ensures command.Some? ==> command.value == argv[0]
  {
    if |argv| == 0 then None else Some(argv[0])
  }

  /** `ARGV.include?("--canary")`. */
  function HasCanaryFlag(argv: seq<string>): (present: bool)
    ensures present <==> exists i :: 0 <= i < |argv| && argv[i] == CANARY_FLAG
  {
    CANARY_FLAG in argv
  }

  /** The test of ecs-deploy.rb:120 passes. */
  function ValidCommand(argv: seq<string>): (valid: bool)
    ensures valid <==> |argv| > 0 && (argv[0] == DEPLOY || argv[0] == ROLLBACK)
  {
    CommandOf(argv) == Some(DEPLOY) || CommandOf(argv) == Some(ROLLBACK)
  }

  /** The branch `exec_command` takes; None when no branch matches. */
  function Dispatch(command: Option<string>, isCanary: bool): (r: Option<EntryPoint>)
    ensures r.Some? <==> command == Some(DEPLOY) || command == Some(ROLLBACK)
    ensures r.Some? ==> command == Some(r.value.Command()) && isCanary == r.value.Canary()
  {
    if command == Some(DEPLOY) && isCanary then Some(CanaryDeploy)
    else if command == Some(ROLLBACK) && isCanary then Some(CanaryRollback)
    else if command == Some(DEPLOY) && !isCanary then Some(Deploy)
    else if command == Some(ROLLBACK) && !isCanary then Some(Rollback)
    else None
  }

  /** The usage line's command line for an entry point. */
  function Argv(entry: EntryPoint): (argv: seq<string>)
    ensures |argv| > 0 && argv[0] == entry.Command()
    ensures HasCanaryFlag(argv) <==> entry.Canary()
  {
    if entry.Canary() then [entry.Command(), CANARY_FLAG] else [entry.Command()]
  }

  /** Every accepted command line reaches exactly one entry point, and every entry point is
      reached by its usage line. */
  lemma DispatchIsOnto(argv: seq<string>, entry: EntryPoint)
    ensures ValidCommand(argv) <==> Dispatch(CommandOf(argv), HasCanaryFlag(argv)).Some?
    ensures Dispatch(CommandOf(Argv(entry)), HasCanaryFlag(Argv(entry))) == Some(entry)
  {
  }

  /** Two command lines reach the same entry point only when they agree on the subcommand
      and on the presence of `--canary`. */
  lemma DispatchIsInjective(a: seq<string>, b: seq<string>)
    requires ValidCommand(a) && ValidCommand(b)
    requires Dispatch(CommandOf(a), HasCanaryFlag(a)) == Dispatch(CommandOf(b), HasCanaryFlag(b))
    ensures a[0] == b[0] && (HasCanaryFlag(a) <==> HasCanaryFlag(b))
  {
  }
}
