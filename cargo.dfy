/**
 * The parts of cargo the engine works with: the kind of tool a command runs,
 * the command prototype the engine reads and rebuilds, and the results of
 * running a process. Cargo's own code is not part of this model; these are
 * the shapes its `CommandPrototype`, `CommandType`, `Output` and
 * `ProcessError` take as the engine uses them.
 */
module Cargo {
  import opened Wrappers

  /** Which tool a command runs; only `Rustc` invocations are ever rewritten. */
  datatype CommandType = Rustc | Rustdoc | Target(program: string) | Host(program: string)

  /** The value of a command prototype: its tool, its arguments in order, its environment overrides and its directory. */
  datatype Command = Command(
    ty: CommandType,
    args: seq<string>,
    envs: map<string, Option<string>>,  // `None` removes the variable
    cwd: string)

  /** A command being built: `arg`, `env` and `cwd` update it in place. */
  class CommandPrototype {
    var ty: CommandType
    var args: seq<string>
    var envs: map<string, Option<string>>
    var cwd: string

    function View(): Command
      reads this
    {
      Command(ty, args, envs, cwd)
    }

    /** `CommandPrototype::new(ty)`: no arguments, no overrides, the process's current directory `dir`. */
    constructor (ty: CommandType, dir: string)
      ensures View() == Command(ty, [], map[], dir)
    {
      this.ty := ty;
      args := [];
      envs := map[];
      cwd := dir;
    }

    /** `arg`: appends one argument. */
    method Arg(a: string)
      modifies this
      ensures View() == old(View()).(args := old(args) + [a])
    {
      args := args + [a];
    }

    /** `env`: sets one variable. */
    method Env(key: string, val: string)
      modifies this
      ensures View() == old(View()).(envs := old(envs)[key := Some(val)])
    {
      envs := envs[key := Some(val)];
    }

    /** `cwd`: sets the directory the command runs in. */
    method SetCwd(dir: string)
      modifies this
      ensures View() == old(View()).(cwd := dir)
    {
      cwd := dir;
    }
  }

  /** A program and its arguments, as `util::process(..).arg(..)` builds it. */
  datatype Process = Process(program: string, args: seq<string>)

  /** What a finished child process reports when its output is captured. */
  datatype Output = Output(status: int, stdout: seq<bv8>, stderr: seq<bv8>)

  /** A failure to run a process, or a run that exited unsuccessfully. */
  datatype ProcessError = ProcessError(desc: string)

  /** The result of `do_exec`: the captured output when it was asked for. */
  type RunResult = Result<Option<Output>, ProcessError>
}
