/** The `Command` lifecycle every subcommand runs through: the constructor
    validates its argument list, then a strict chain of four stages runs
    (runtime version gate, argument split, `init`, `exec`); the first stage
    that throws ends the chain, its error is logged and swallowed. */
module CommandModel {
  import opened Common

  /** One element of the argument list: a positional value (or a missing
      one) or the parsed options object with its `force` flag. */
  datatype ArgValue = Nullish | Str(s: string) | Options(force: bool)

  /** JavaScript truthiness of an argument. */
  predicate Truthy(v: ArgValue) {
    match v
    case Nullish => false
    case Str(s) => s != ""
    case Options(_) => true
  }

  /** The constructor's argument: falsy, a non-array value, or an array. */
  datatype ArgvInput = Falsy | NotArray | Array(items: seq<ArgValue>)

  /** The constructor's validation: the argument list it keeps, or the error
      it throws before any stage runs. */
  function CheckArgv(a: ArgvInput): (r: Result<seq<ArgValue>>)
    ensures r.Ok? <==> a.Array? && |a.items| >= 1
    ensures r.Ok? ==> r.value == a.items
    ensures a.Falsy? ==> r == Err(ArgvMissing)
    ensures a.NotArray? ==> r == Err(ArgvNotArray)
    ensures a == Array([]) ==> r == Err(ArgvEmpty)
  {
    match a
    case Falsy => Err(ArgvMissing)
    case NotArray => Err(ArgvNotArray)
    case Array(items) => if |items| < 1 then Err(ArgvEmpty) else Ok(items)
  }

  /** A runtime version as a numeric (major, minor, patch) triple. */
  datatype Version = Version(major: nat, minor: nat, patch: nat)

  /** The lowest supported runtime version, 12.0.0. */
  const LowestNodeVersion := Version(12, 0, 0)

  /** Precedence of numeric triples, as in section 11 of Semantic Versioning
      2.0.0: major, then minor, then patch, each compared numerically. */
  function Compare(a: Version, b: Version): (c: int)
    ensures c == 0 <==> a == b
    ensures -1 <= c <= 1
  {
    if a.major != b.major then (if a.major < b.major then -1 else 1)
    else if a.minor != b.minor then (if a.minor < b.minor then -1 else 1)
    else if a.patch != b.patch then (if a.patch < b.patch then -1 else 1)
    else 0
  }

  /** `semver.gte` on numeric triples. */
  predicate Gte(a: Version, b: Version) {
    Compare(a, b) >= 0
  }

  /** Precedence is antisymmetric and transitive, hence a total order. */
  lemma CompareIsTotalOrder(a: Version, b: Version, c: Version)
    ensures Compare(a, b) == -Compare(b, a)
    ensures Gte(a, b) && Gte(b, c) ==> Gte(a, c)
    ensures Gte(a, b) || Gte(b, a)
  {
  }

  /** `checkNodeVersion`: throws when the runtime precedes 12.0.0, that is,
      exactly when its major version is below 12. */
  function CheckNodeVersion(current: Version): (r: Result<()>)
    ensures r.Err? <==> current.major < 12
    ensures r.Err? ==> r.error == NodeVersionTooLow
  {
    if !Gte(current, LowestNodeVersion) then Err(NodeVersionTooLow) else Ok(())
  }

  /** `initArgs` on values: the last element becomes the options object and
      the rest stays the positional list. An empty list yields an undefined
      options object and stays empty. */
  function SplitArgs(argv: seq<ArgValue>): (r: (ArgValue, seq<ArgValue>))
    ensures argv != [] ==> r.1 + [r.0] == argv
    ensures argv != [] ==> |r.1| == |argv| - 1
    ensures argv == [] ==> r == (Nullish, [])
  {
    if argv == [] then (Nullish, [])
    else (argv[|argv| - 1], argv[..|argv| - 1])
  }

  /** The stages of the pipeline, in the order they run. */
  datatype Stage = CheckNodeVersionStage | InitArgsStage | InitStage | ExecStage

  const Stages: seq<Stage> := [CheckNodeVersionStage, InitArgsStage, InitStage, ExecStage]

  /** The base command: its argument fields, the stages that have started, the
      errors the pipeline logged, and whether the runner promise resolved. */
  class Command {
    var argv: seq<ArgValue>
    var cmd: ArgValue
    var stagesRun: seq<Stage>
    var errorLog: seq<Failure>
    var resolved: bool

    /** The state right after the constructor assigned `_argv`. */
    constructor (items: seq<ArgValue>)
      ensures argv == items && cmd == Nullish
      ensures stagesRun == [] && errorLog == [] && !resolved
    {
      argv := items;
      cmd := Nullish;
      stagesRun := [];
      errorLog := [];
      resolved := false;
    }

    /** `new Command(argv)` with the base hooks: throws, and runs nothing, on
        an invalid argument; otherwise runs the pipeline, which for the base
        class always stops at `init` (or earlier, at the version gate). */
    static method Create(a: ArgvInput, runtime: Version) returns (r: Result<Command>)
      ensures r.Err? <==> CheckArgv(a).Err?
      ensures r.Err? ==> r.error == CheckArgv(a).error
      ensures r.Ok? ==> fresh(r.value) && !r.value.resolved
      ensures r.Ok? && CheckNodeVersion(runtime).Ok? ==>
        r.value.stagesRun == [CheckNodeVersionStage, InitArgsStage, InitStage]
      ensures r.Ok? && CheckNodeVersion(runtime).Err? ==>
        && r.value.stagesRun == [CheckNodeVersionStage]
        && r.value.errorLog == [NodeVersionTooLow]
        && r.value.argv == a.items && r.value.cmd == Nullish
      ensures r.Ok? && CheckNodeVersion(runtime).Ok? ==>
        && r.value.errorLog == [InitNotImplemented]
        && (r.value.cmd, r.value.argv) == SplitArgs(a.items)
    {
      var checked := CheckArgv(a);
      if checked.Err? {
        return Err(checked.error);
      }
      var c := new Command(checked.value);
      c.Run(runtime);
      r := Ok(c);
    }

    /** `initArgs`: split off the options object, in place. */
    method InitArgs()
      modifies this`argv, this`cmd
      ensures (cmd, argv) == SplitArgs(old(argv))
      ensures old(argv) != [] ==> argv + [cmd] == old(argv) && |argv| == |old(argv)| - 1
    {
      cmd := if argv == [] then Nullish else argv[|argv| - 1];
      argv := if argv == [] then [] else argv[..|argv| - 1];
    }

    /** The base `init` hook always throws: a subclass must provide its own. */
    method Init() returns (r: Result<()>)
      ensures r == Err(InitNotImplemented)
    {
      r := Err(InitNotImplemented);
    }

    /** The base `exec` hook always throws: a subclass must provide its own. */
    method Exec() returns (r: Result<()>)
      ensures r == Err(ExecNotImplemented)
    {
      r := Err(ExecNotImplemented);
    }

    /** The runner chain with the base hooks. The version gate either throws
        (and nothing else runs) or passes; then the arguments are split and
        the base `init` throws, so `exec` is never reached and the runner
        never resolves. Every error is logged, none escapes. */
    method Run(runtime: Version)
      requires stagesRun == [] && !resolved
      modifies this
      ensures stagesRun <= Stages && !resolved
      ensures CheckNodeVersion(runtime).Err? ==>
        && stagesRun == [CheckNodeVersionStage]
        && errorLog == old(errorLog) + [NodeVersionTooLow]
        && argv == old(argv) && cmd == old(cmd)
      ensures CheckNodeVersion(runtime).Ok? ==>
        && stagesRun == [CheckNodeVersionStage, InitArgsStage, InitStage]
        && errorLog == old(errorLog) + [InitNotImplemented]
        && (cmd, argv) == SplitArgs(old(argv))
    {
      stagesRun := stagesRun + [CheckNodeVersionStage];
      var gate := CheckNodeVersion(runtime);
      if gate.Err? {
        errorLog := errorLog + [gate.error];
        return;
      }
      stagesRun := stagesRun + [InitArgsStage];
      InitArgs();
      stagesRun := stagesRun + [InitStage];
      var init := Init();
      errorLog := errorLog + [init.error];
    }
  }
}
