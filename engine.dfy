/**
 * The decision and rewrite logic of the cargo `ExecEngine` in src/lib.rs:
 * classifying an intercepted command, planning which `--emit` to ask rustc
 * for, rebuilding the command, and what runs after the first pass (the
 * LLVM 3.5 transform of the emitted `.ll` file and the emscripten call).
 */
module Engine {
  import opened Wrappers
  import opened Text
  import opened Cargo

  /** `BuildEngine`: assembled once per build and only read afterwards. */
  datatype BuildEngine = BuildEngine(
    target: Option<string>,
    sysroot: Option<string>,
    emcc: Option<string>,
    opt: Option<string>,
    emit: Option<string>)

  /** The conditions under which the engine aborts (its `unwrap`s and its `panic!`). */
  datatype Fatal =
    | MissingCrateName
    | MissingOutDir
    | RemovedEnvVar
    | UnsupportedEmscriptenEmit(kind: string)

  /** The crate name cargo gives build scripts. */
  const BuildScriptName := "build-script-build"

  // ---------------------------------------------------------------------------
  // Emit kinds

  /** `BuildEngine::emit_needs_35`: the `llvm35-` and `em-` kinds need the LLVM 3.5 transform. */
  predicate EmitNeeds35(emit: Option<string>) {
    match emit
    case Some(kind) => StartsWith(kind, "llvm35-") || StartsWith(kind, "em-")
    case None => false
  }

  /** The extension emcc is asked to produce for an `em-` kind, or `None` for a kind it does not support. */
  function EmscriptenExtension(kind: string): Option<string> {
    if kind == "em-html" then Some("html")
    else if kind == "em-js" then Some("js")
    else None
  }

  /**
   * Every kind of the `llvm35-` and `em-` families needs the transform, and no
   * kind at all does not. The kinds emcc is run for, and every `em-` kind
   * (supported or not), need it, so emcc always reads an IR file the
   * transform has rewritten.
   */
  lemma EmitNeeds35Families(kind: string, rest: string)
    ensures EmitNeeds35(Some("llvm35-" + rest)) && EmitNeeds35(Some("em-" + rest))
    ensures !EmitNeeds35(None)
    ensures EmscriptenExtension(kind).Some? ==> StartsWith(kind, "em-") && EmitNeeds35(Some(kind))
  {
    assert ("llvm35-" + rest)[..7] == "llvm35-";
    assert ("em-" + rest)[..3] == "em-";
  }

  // ---------------------------------------------------------------------------
  // Classification

  /** Whether some adjacent pair of arguments is `--crate-type bin` (a `windows(2)` search). */
  function IsBinary(args: seq<string>): (b: bool)
    ensures b <==> exists i | 0 <= i < |args| - 1 :: args[i] == "--crate-type" && args[i + 1] == "bin"
    decreases |args|
  {
    if |args| < 2 then false
    else if args[0] == "--crate-type" && args[1] == "bin" then true
    else
      var rest := IsBinary(args[1..]);
      assert rest ==> exists i | 0 <= i < |args| - 1 :: args[i] == "--crate-type" && args[i + 1] == "bin" by {
        if rest {
          var j :| 0 <= j < |args[1..]| - 1 && args[1..][j] == "--crate-type" && args[1..][j + 1] == "bin";
          assert args[j + 1] == "--crate-type" && args[j + 2] == "bin";
        }
      }
      assert (exists i | 0 <= i < |args| - 1 :: args[i] == "--crate-type" && args[i + 1] == "bin") ==> rest by {
        if exists i | 0 <= i < |args| - 1 :: args[i] == "--crate-type" && args[i + 1] == "bin" {
          var i :| 0 <= i < |args| - 1 && args[i] == "--crate-type" && args[i + 1] == "bin";
          assert i != 0;
          assert args[1..][i - 1] == "--crate-type" && args[1..][i] == "bin";
        }
      }
      rest
  }

  /**
   * The argument right after the first `flag` that has one after it: the
   * first window `[flag, value]` of `windows(2)`.
   */
  function ValueAfter(args: seq<string>, flag: string): (r: Option<string>)
    ensures r.Some? <==> exists i | 0 <= i < |args| - 1 :: args[i] == flag
    ensures r.Some? ==> exists i | 0 <= i < |args| - 1 :: args[i] == flag && args[i + 1] == r.value && flag !in args[..i]
    decreases |args|
  {
    if |args| < 2 then None
    else if args[0] == flag then Some(args[1])
    else
      var rest := ValueAfter(args[1..], flag);
      assert rest.Some? ==> exists i | 0 <= i < |args| - 1 :: args[i] == flag && args[i + 1] == rest.value && flag !in args[..i] by {
        if rest.Some? {
          var j :| 0 <= j < |args[1..]| - 1 && args[1..][j] == flag && args[1..][j + 1] == rest.value && flag !in args[1..][..j];
          assert args[..j + 1] == [args[0]] + args[1..][..j];
          assert args[j + 1] == flag && args[j + 2] == rest.value;
        }
      }
      assert (exists i | 0 <= i < |args| - 1 :: args[i] == flag) ==> rest.Some? by {
        if exists i | 0 <= i < |args| - 1 :: args[i] == flag {
          var i :| 0 <= i < |args| - 1 && args[i] == flag;
          assert args[1..][i - 1] == flag;
        }
      }
      rest
  }

  /** What the engine learns from the arguments of a rustc invocation. */
  datatype Classification = Classification(
    isBinary: bool,
    crateName: string,
    outDir: string,
    hasTarget: bool,
    isBuild: bool)  // a build script, or a host tool compiled while cross-compiling

  /**
   * The scan of the arguments. The crate name is looked for first, then the
   * output directory; either one missing aborts.
   */
  function Classify(args: seq<string>, target: Option<string>): Result<Classification, Fatal> {
    var isBinary := IsBinary(args);
    match ValueAfter(args, "--crate-name")
    case None => Err(MissingCrateName)
    case Some(crateName) =>
      match ValueAfter(args, "--out-dir")
      case None => Err(MissingOutDir)
      case Some(outDir) =>
        var hasTarget := "--target" in args;
        var isBuild := crateName == BuildScriptName || (!hasTarget && target.Some?);
        Ok(Classification(isBinary, crateName, outDir, hasTarget, isBuild))
  }

  /**
   * Classification in terms of the arguments themselves: it aborts exactly
   * when no `--crate-name` or no `--out-dir` is followed by a value (the crate
   * name being reported first), and otherwise marks the command as a build
   * tool exactly when the crate is a build script or, with a target
   * configured, no argument is `--target`.
   */
  lemma ClassifyMeaning(args: seq<string>, target: Option<string>)
    ensures (forall i | 0 <= i < |args| - 1 :: args[i] != "--crate-name") ==>
      Classify(args, target) == Err(MissingCrateName)
    ensures (exists i | 0 <= i < |args| - 1 :: args[i] == "--crate-name") &&
            (forall i | 0 <= i < |args| - 1 :: args[i] != "--out-dir") ==>
      Classify(args, target) == Err(MissingOutDir)
    ensures Classify(args, target).Ok? <==>
      (exists i | 0 <= i < |args| - 1 :: args[i] == "--crate-name") &&
      (exists i | 0 <= i < |args| - 1 :: args[i] == "--out-dir")
    ensures Classify(args, target).Ok? ==>
      var c := Classify(args, target).value;
      (c.isBinary <==> exists i | 0 <= i < |args| - 1 :: args[i] == "--crate-type" && args[i + 1] == "bin") &&
      c.crateName == ValueAfter(args, "--crate-name").value &&
      c.outDir == ValueAfter(args, "--out-dir").value &&
      (c.hasTarget <==> "--target" in args) &&
      (c.isBuild <==> c.crateName == BuildScriptName || (target.Some? && forall i | 0 <= i < |args| :: args[i] != "--target"))
  {
  }

  // ---------------------------------------------------------------------------
  // Planning

  /** The `(emit, rustc_emit, transform)` triple. */
  datatype EmitPlan = EmitPlan(emit: Option<string>, rustcEmit: Option<string>, transform: bool)

  /**
   * Only a binary that is not a build tool is rewritten: with an `llvm35-` or
   * `em-` kind rustc is asked for LLVM IR and the transform is requested, with
   * any other kind rustc is asked for that kind verbatim.
   */
  function PlanEmit(c: Classification, emit: Option<string>): (p: EmitPlan)
    ensures p.rustcEmit.Some? <==> c.isBinary && !c.isBuild && emit.Some?
    ensures p.transform <==> c.isBinary && !c.isBuild && EmitNeeds35(emit)
    ensures p.transform ==> p.rustcEmit == Some("llvm-ir")
    ensures p.rustcEmit.Some? && !p.transform ==> p.rustcEmit == emit
    ensures c.isBinary && !c.isBuild ==> p.emit == emit
    ensures !c.isBinary || c.isBuild ==> p == EmitPlan(None, None, false)
  {
    if c.isBinary && !c.isBuild then
      if EmitNeeds35(emit) then EmitPlan(emit, Some("llvm-ir"), true)
      else EmitPlan(emit, emit, false)
    else EmitPlan(None, None, false)
  }

  // ---------------------------------------------------------------------------
  // Rewriting

  /** The arguments without those that start with `--emit`, in their order. */
  function WithoutEmitFlags(args: seq<string>): (r: seq<string>)
    ensures forall i | 0 <= i < |r| :: !StartsWith(r[i], "--emit") && r[i] in args
    decreases |args|
  {
    if args == [] then []
    else
      var last := args[|args| - 1];
      var kept := WithoutEmitFlags(args[..|args| - 1]);
      assert forall x | x in args[..|args| - 1] :: x in args;
      kept + (if StartsWith(last, "--emit") then [] else [last])
  }

  /** Filtering works piecewise, so the arguments that stay keep their relative order. */
  lemma {:induction false} WithoutEmitFlagsAppend(a: seq<string>, b: seq<string>)
    ensures WithoutEmitFlags(a + b) == WithoutEmitFlags(a) + WithoutEmitFlags(b)
    decreases |b|
  {
    if b == [] {
      assert a + b == a;
    } else {
      var b' := b[..|b| - 1];
      assert (a + b)[..|a + b| - 1] == a + b';
      assert (a + b)[|a + b| - 1] == b[|b| - 1];
      WithoutEmitFlagsAppend(a, b');
    }
  }

  /** Every argument that does not start with `--emit` stays, as many times as it occurred; the others all go. */
  lemma {:induction false} WithoutEmitFlagsCounts(args: seq<string>, x: string)
    ensures multiset(WithoutEmitFlags(args))[x] == if StartsWith(x, "--emit") then 0 else multiset(args)[x]
    decreases |args|
  {
    if args != [] {
      var init := args[..|args| - 1];
      WithoutEmitFlagsCounts(init, x);
      assert args == init + [args[|args| - 1]];
    }
  }

  /**
   * Only the flag itself is dropped: when `--emit` and its value are two
   * separate arguments, the value stays behind among the others.
   */
  lemma EmitValueArgumentKept(before: seq<string>, value: string, after: seq<string>)
    requires !StartsWith(value, "--emit")
    ensures WithoutEmitFlags(before + ["--emit", value] + after)
         == WithoutEmitFlags(before) + [value] + WithoutEmitFlags(after)
  {
    WithoutEmitFlagsAppend(before + ["--emit", value], after);
    WithoutEmitFlagsAppend(before, ["--emit", value]);
    var pair := ["--emit", value];
    assert pair[..1] == ["--emit"] && pair[1] == value;
    assert ["--emit"][..0] == [] && StartsWith("--emit", "--emit");
    assert WithoutEmitFlags(["--emit"]) == [];
    assert WithoutEmitFlags(pair) == [value];
  }

  /** The arguments of the rebuilt command: the others, then the new `--emit`, then `-C lto` when asked. */
  function RewrittenArgs(args: seq<string>, rustcEmit: string, lto: bool): seq<string> {
    WithoutEmitFlags(args) + ["--emit", "dep-info," + rustcEmit] + (if lto then ["-C", "lto"] else [])
  }

  /** `<out_dir>/<crate_name>.ll`, the IR file rustc writes. */
  function LlFile(outDir: string, crateName: string): string {
    outDir + "/" + crateName + ".ll"
  }

  // ---------------------------------------------------------------------------
  // The plan of one intercepted command

  /** The LLVM 3.5 transform of the `.ll` file, run by the given `opt`. */
  datatype TransformJob = TransformJob(opt: string, llFile: string)

  /** What follows the first pass and the transform. */
  datatype Dispatch =
    | Passthrough               // the first pass's result is the result
    | RunEmcc(process: Process)  // emcc turns the `.ll` file into the requested artifact
    | Unsupported(kind: string)  // an `em-` kind emcc is not asked for: abort

  /** Everything `exec` runs for one command, in order. */
  datatype Plan = Plan(first: Command, withOutput: bool, transform: Option<TransformJob>, dispatch: Dispatch)

  /** The emscripten step: only an `em-` kind leads to it. */
  function PlanDispatch(emit: Option<string>, emcc: Option<string>, outDir: string, crateName: string): Dispatch {
    if emit.Some? && StartsWith(emit.value, "em-") then
      match EmscriptenExtension(emit.value)
      case None => Unsupported(emit.value)
      case Some(extension) =>
        var program := match emcc case Some(path) => path case None => "emcc";
        RunEmcc(Process(program, [LlFile(outDir, crateName), "-lGL", "-lSDL", "-s", "USE_SDL=2",
                                  "-o", outDir + "/" + crateName + "." + extension]))
    else Passthrough
  }

  /**
   * The command the first pass runs: rebuilt when rustc is to be asked for
   * another emit (which aborts when the command removes a variable), then
   * given the sysroot unless it is a build tool.
   */
  function FirstPass(cmd: Command, c: Classification, p: EmitPlan, sysroot: Option<string>): Result<Command, Fatal> {
    if p.rustcEmit.Some? && None in cmd.envs.Values then Err(RemovedEnvVar)
    else
      var rewritten :=
        if p.rustcEmit.Some?
        then cmd.(args := RewrittenArgs(cmd.args, p.rustcEmit.value, p.transform && c.isBinary && !c.isBuild))
        else cmd;
      if sysroot.Some? && !c.isBuild
      then Ok(rewritten.(args := rewritten.args + ["--sysroot", sysroot.value]))
      else Ok(rewritten)
  }

  /** The transform of `<out_dir>/<crate_name>.ll`, when the plan asks for it, by the configured `opt` or else `opt`. */
  function TransformFor(c: Classification, p: EmitPlan, opt: Option<string>): Option<TransformJob> {
    if p.transform then
      var program := match opt case Some(path) => path case None => "opt";
      Some(TransformJob(program, LlFile(c.outDir, c.crateName)))
    else None
  }

  /** The whole decision of `exec` for one command, as a value. */
  function ExecPlan(cmd: Command, withOutput: bool, engine: BuildEngine): Result<Plan, Fatal> {
    if cmd.ty != Rustc then Ok(Plan(cmd, withOutput, None, Passthrough))
    else
      match Classify(cmd.args, engine.target)
      case Err(e) => Err(e)
      case Ok(c) =>
        var p := PlanEmit(c, engine.emit);
        match FirstPass(cmd, c, p, engine.sysroot)
        case Err(e) => Err(e)
        case Ok(first) =>
          Ok(Plan(first, withOutput, TransformFor(c, p, engine.opt), PlanDispatch(p.emit, engine.emcc, c.outDir, c.crateName)))
  }

  /** The loop copying every argument that does not start with `--emit` into the new command. */
  method CopyArgs(target: CommandPrototype, args: seq<string>)
    modifies target
    ensures target.View() == old(target.View()).(args := old(target.args) + WithoutEmitFlags(args))
  {
    var i := 0;
    while i < |args|
      invariant 0 <= i <= |args|
      invariant target.View() == old(target.View()).(args := old(target.args) + WithoutEmitFlags(args[..i]))
    {
      var arg := args[i];
      assert args[..i + 1][..i] == args[..i];
      if !StartsWith(arg, "--emit") {
        target.Arg(arg);
      }
      i := i + 1;
    }
    assert args[..i] == args;
  }

  /** The variables of `envs` copied so far: all but the `pending` ones. */
  function Copied(envs: map<string, Option<string>>, pending: set<string>): map<string, Option<string>> {
    map k | k in envs && k !in pending :: envs[k]
  }

  /** Copying one more pending variable adds exactly that variable. */
  lemma CopiedStep(envs: map<string, Option<string>>, pending: set<string>, key: string)
    requires key in envs && key in pending
    ensures Copied(envs, pending - {key}) == Copied(envs, pending)[key := envs[key]]
  {
  }

  /**
   * The loop copying the environment into the new command, in no particular
   * order; it gives up (`false`) on a variable the command removes rather
   * than sets, where the source's `unwrap` fails.
   */
  method CopyEnvs(target: CommandPrototype, envs: map<string, Option<string>>) returns (ok: bool)
    modifies target
    ensures ok <==> None !in envs.Values
    ensures ok ==> target.View() == old(target.View()).(envs := old(target.envs) + envs)
  {
    var pending := envs.Keys;
    while pending != {}
      invariant pending <= envs.Keys
      invariant forall k | k in envs && k !in pending :: envs[k].Some?
      invariant target.View() == old(target.View()).(envs := old(target.envs) + Copied(envs, pending))
      decreases pending
    {
      var key :| key in pending;
      var val := envs[key];
      if val.None? {
        assert val in envs.Values;
        return false;
      }
      target.Env(key, val.value);
      CopiedStep(envs, pending, key);
      pending := pending - {key};
    }
    assert Copied(envs, pending) == envs;
    ok := true;
  }

  /**
   * Building `new_command`: a new prototype of the same tool with the kept
   * arguments, the environment and the directory of `original`, then
   * `--emit dep-info,<rustcEmit>` and, when `lto` holds, `-C lto`. There is
   * none when `original` removes a variable.
   */
  method Rebuild(original: Command, rustcEmit: string, lto: bool, dir: string) returns (built: Option<CommandPrototype>)
    ensures built.None? <==> None in original.envs.Values
    ensures built.Some? ==> fresh(built.value) && built.value.View() == original.(args := RewrittenArgs(original.args, rustcEmit, lto))
  {
    var newCommand := new CommandPrototype(original.ty, dir);
    CopyArgs(newCommand, original.args);
    var ok := CopyEnvs(newCommand, original.envs);
    if !ok {
      return None;
    }
    assert map[] + original.envs == original.envs;
    newCommand.SetCwd(original.cwd);
    ghost var kept := WithoutEmitFlags(original.args);
    assert newCommand.View() == original.(args := kept);
    newCommand.Arg("--emit");
    newCommand.Arg("dep-info," + rustcEmit);
    assert newCommand.View() == original.(args := kept + ["--emit", "dep-info," + rustcEmit]);
    if lto {
      newCommand.Arg("-C");
      newCommand.Arg("lto");
    }
    assert newCommand.View() == original.(args := RewrittenArgs(original.args, rustcEmit, lto));
    built := Some(newCommand);
  }

  /**
   * `exec` up to running the first pass: classify, plan, rebuild the command
   * when rustc is to be asked for another emit and swap the new one in, and
   * give a command that is not a build tool the configured sysroot. `dir` is
   * the current directory a new prototype starts in.
   */
  method Exec(command: CommandPrototype, withOutput: bool, engine: BuildEngine, dir: string)
    returns (r: Result<Plan, Fatal>)
    modifies command
    ensures r == ExecPlan(old(command.View()), withOutput, engine)
  {
    var original := command.View();
    if command.ty != Rustc {
      return Ok(Plan(original, withOutput, None, Passthrough));
    }
    var c: Classification;
    match Classify(original.args, engine.target) {
      case Err(e) => return Err(e);
      case Ok(found) => c := found;
    }
    var p := PlanEmit(c, engine.emit);
    var cmd := command;
    ghost var rewritten := original;
    if p.rustcEmit.Some? {
      var lto := p.transform && c.isBinary && !c.isBuild;
      var built := Rebuild(original, p.rustcEmit.value, lto, dir);
      if built.None? {
        return Err(RemovedEnvVar);
      }
      cmd := built.value;
      rewritten := original.(args := RewrittenArgs(original.args, p.rustcEmit.value, lto));
    }
    assert cmd.View() == rewritten;
    if engine.sysroot.Some? && !c.isBuild {
      cmd.Arg("--sysroot");
      cmd.Arg(engine.sysroot.value);
      rewritten := rewritten.(args := rewritten.args + ["--sysroot", engine.sysroot.value]);
    }
    assert FirstPass(original, c, p, engine.sysroot) == Ok(rewritten);
    assert cmd.View() == rewritten;
    r := Ok(Plan(cmd.View(), withOutput, TransformFor(c, p, engine.opt), PlanDispatch(p.emit, engine.emcc, c.outDir, c.crateName)));
  }

  // ---------------------------------------------------------------------------
  // After the first pass

  /** How `exec` ends: with the result of the last process it ran, with that process's failure, or aborted. */
  datatype Outcome = Completed(output: Option<Output>) | Failed(error: ProcessError) | Aborted(reason: Fatal)

  /**
   * The rest of `exec`, given what running the first pass and emcc gave: a
   * failed first pass ends it (the transform and emcc are not reached),
   * otherwise the emscripten step decides the result.
   */
  function Finish(plan: Plan, first: RunResult, emcc: RunResult): (o: Outcome)
    ensures first.Err? ==> o == Failed(first.error)
    ensures first.Ok? && plan.dispatch.Passthrough? ==> o == Completed(first.value)
    ensures first.Ok? && plan.dispatch.RunEmcc? ==> o == (if emcc.Ok? then Completed(emcc.value) else Failed(emcc.error))
    ensures o.Aborted? <==> first.Ok? && plan.dispatch.Unsupported?
    ensures o.Aborted? ==> o.reason == UnsupportedEmscriptenEmit(plan.dispatch.kind)
  {
    match first
    case Err(e) => Failed(e)
    case Ok(output) =>
      match plan.dispatch
      case Passthrough => Completed(output)
      case Unsupported(kind) => Aborted(UnsupportedEmscriptenEmit(kind))
      case RunEmcc(_) =>
        match emcc
        case Ok(o) => Completed(o)
        case Err(e) => Failed(e)
  }
}
