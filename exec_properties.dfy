/**
 * What `exec` (src/lib.rs) does to a whole command, stated over the
 * arguments, environment and configuration it is given.
 */
module ExecProperties {
  import opened Wrappers
  import opened Text
  import opened Cargo
  import opened Engine

  /** Any command that does not run rustc is run exactly as given, and its result is the result. */
  lemma NonRustcUnchanged(cmd: Command, withOutput: bool, engine: BuildEngine, first: RunResult, emcc: RunResult)
    requires cmd.ty != Rustc
    ensures ExecPlan(cmd, withOutput, engine) == Ok(Plan(cmd, withOutput, None, Passthrough))
    ensures Finish(ExecPlan(cmd, withOutput, engine).value, first, emcc)
            == if first.Ok? then Completed(first.value) else Failed(first.error)
  {
  }

  /** A rustc command without `--crate-name <name>` aborts, and so does one without `--out-dir <dir>`. */
  lemma MissingFlagsFatal(cmd: Command, withOutput: bool, engine: BuildEngine)
    requires cmd.ty == Rustc
    ensures (forall i | 0 <= i < |cmd.args| - 1 :: cmd.args[i] != "--crate-name") ==>
      ExecPlan(cmd, withOutput, engine) == Err(MissingCrateName)
    ensures (exists i | 0 <= i < |cmd.args| - 1 :: cmd.args[i] == "--crate-name") &&
            (forall i | 0 <= i < |cmd.args| - 1 :: cmd.args[i] != "--out-dir") ==>
      ExecPlan(cmd, withOutput, engine) == Err(MissingOutDir)
  {
    ClassifyMeaning(cmd.args, engine.target);
  }

  /**
   * A build script, or a host tool compiled while a target is configured
   * and no `--target` is passed, runs exactly as given: no rewrite, no
   * sysroot, no transform, no emcc.
   */
  lemma BuildToolUnchanged(cmd: Command, withOutput: bool, engine: BuildEngine)
    requires cmd.ty == Rustc && Classify(cmd.args, engine.target).Ok?
    requires ValueAfter(cmd.args, "--crate-name") == Some(BuildScriptName) ||
             (engine.target.Some? && "--target" !in cmd.args)
    ensures ExecPlan(cmd, withOutput, engine) == Ok(Plan(cmd, withOutput, None, Passthrough))
  {
  }

  /** A rustc command that is neither a binary nor a build tool keeps its arguments and only gains the sysroot. */
  lemma NonBinaryOnlySysroot(cmd: Command, withOutput: bool, engine: BuildEngine)
    requires cmd.ty == Rustc && Classify(cmd.args, engine.target).Ok?
    requires var c := Classify(cmd.args, engine.target).value; !c.isBinary && !c.isBuild
    ensures ExecPlan(cmd, withOutput, engine).Ok?
    ensures var plan := ExecPlan(cmd, withOutput, engine).value;
      plan.first == cmd.(args := cmd.args + if engine.sysroot.Some? then ["--sysroot", engine.sysroot.value] else []) &&
      plan.transform == None && plan.dispatch == Passthrough
  {
  }

  /** With no emit kind configured, nothing but the sysroot is ever added, and nothing runs after the first pass. */
  lemma NoEmitNoRewrite(cmd: Command, withOutput: bool, engine: BuildEngine)
    requires cmd.ty == Rustc && Classify(cmd.args, engine.target).Ok? && engine.emit.None?
    ensures ExecPlan(cmd, withOutput, engine).Ok?
    ensures var plan := ExecPlan(cmd, withOutput, engine).value;
      var c := Classify(cmd.args, engine.target).value;
      plan.first == cmd.(args := cmd.args + if engine.sysroot.Some? && !c.isBuild then ["--sysroot", engine.sysroot.value] else []) &&
      plan.transform == None && plan.dispatch == Passthrough
  {
  }

  /**
   * A binary that is not a build tool, under a configured emit kind, runs
   * with: its arguments minus every `--emit...` one, then `--emit
   * dep-info,llvm-ir` and `-C lto` for an `llvm35-`/`em-` kind (or `--emit
   * dep-info,<kind>` for any other kind), then the sysroot when configured;
   * tool, environment and directory unchanged. The transform of
   * `<out_dir>/<crate_name>.ll` follows exactly for the `llvm35-`/`em-` kinds.
   */
  lemma RewrittenBinary(cmd: Command, withOutput: bool, engine: BuildEngine)
    requires cmd.ty == Rustc && Classify(cmd.args, engine.target).Ok?
    requires var c := Classify(cmd.args, engine.target).value; c.isBinary && !c.isBuild
    requires engine.emit.Some? && None !in cmd.envs.Values
    ensures ExecPlan(cmd, withOutput, engine).Ok?
    ensures var plan := ExecPlan(cmd, withOutput, engine).value;
      var c := Classify(cmd.args, engine.target).value;
      var needs35 := EmitNeeds35(engine.emit);
      var kind := if needs35 then "llvm-ir" else engine.emit.value;
      plan.first.ty == cmd.ty && plan.first.envs == cmd.envs && plan.first.cwd == cmd.cwd &&
      plan.first.args == WithoutEmitFlags(cmd.args) + ["--emit", "dep-info," + kind]
                         + (if needs35 then ["-C", "lto"] else [])
                         + (if engine.sysroot.Some? then ["--sysroot", engine.sysroot.value] else []) &&
      (plan.transform.Some? <==> needs35) &&
      (needs35 ==> plan.transform.value.llFile == c.outDir + "/" + c.crateName + ".ll") &&
      (needs35 ==> plan.transform.value.opt == if engine.opt.Some? then engine.opt.value else "opt")
  {
  }

  /** A rewrite of a command that removes an environment variable aborts. */
  lemma RemovedEnvFatal(cmd: Command, withOutput: bool, engine: BuildEngine)
    requires cmd.ty == Rustc && Classify(cmd.args, engine.target).Ok?
    requires var c := Classify(cmd.args, engine.target).value; c.isBinary && !c.isBuild
    requires engine.emit.Some? && None in cmd.envs.Values
    ensures ExecPlan(cmd, withOutput, engine) == Err(RemovedEnvVar)
  {
  }

  /** The sysroot is added only to commands that are not build tools, and only as the last two arguments. */
  lemma SysrootOnlyOutsideBuildTools(cmd: Command, withOutput: bool, engine: BuildEngine)
    requires cmd.ty == Rustc && Classify(cmd.args, engine.target).Ok? && ExecPlan(cmd, withOutput, engine).Ok?
    ensures var plan := ExecPlan(cmd, withOutput, engine).value;
      var c := Classify(cmd.args, engine.target).value;
      var base := if PlanEmit(c, engine.emit).rustcEmit.Some?
                  then RewrittenArgs(cmd.args, PlanEmit(c, engine.emit).rustcEmit.value, PlanEmit(c, engine.emit).transform)
                  else cmd.args;
      plan.first.args == base + (if engine.sysroot.Some? && !c.isBuild then ["--sysroot", engine.sysroot.value] else [])
  {
  }

  /**
   * emcc is reached only for an `em-` kind, and then only after the
   * transform; `em-html` and `em-js` run emcc on `<out_dir>/<crate_name>.ll`
   * with the SDL flags, writing `<out_dir>/<crate_name>.html` or `.js`, and any
   * other `em-` kind aborts.
   */
  lemma EmscriptenDispatch(cmd: Command, withOutput: bool, engine: BuildEngine)
    requires ExecPlan(cmd, withOutput, engine).Ok?
    ensures var plan := ExecPlan(cmd, withOutput, engine).value;
      plan.dispatch != Passthrough ==>
        plan.transform.Some? && engine.emit.Some? && StartsWith(engine.emit.value, "em-")
    ensures var plan := ExecPlan(cmd, withOutput, engine).value;
      plan.dispatch.RunEmcc? ==>
        var c := Classify(cmd.args, engine.target).value;
        var ext := if engine.emit == Some("em-html") then "html" else "js";
        (engine.emit == Some("em-html") || engine.emit == Some("em-js")) &&
        plan.dispatch.process.args == [c.outDir + "/" + c.crateName + ".ll", "-lGL", "-lSDL", "-s", "USE_SDL=2",
                                       "-o", c.outDir + "/" + c.crateName + "." + ext]
    ensures var plan := ExecPlan(cmd, withOutput, engine).value;
      plan.dispatch.Unsupported? ==>
        engine.emit == Some(plan.dispatch.kind) && plan.dispatch.kind != "em-html" && plan.dispatch.kind != "em-js"
    ensures var plan := ExecPlan(cmd, withOutput, engine).value;
      plan.transform.Some? && engine.emit.Some? && StartsWith(engine.emit.value, "em-") ==>
        (plan.dispatch.RunEmcc? <==> engine.emit == Some("em-html") || engine.emit == Some("em-js")) &&
        (plan.dispatch.Unsupported? <==> engine.emit != Some("em-html") && engine.emit != Some("em-js")) &&
        (plan.dispatch.RunEmcc? ==> plan.dispatch.process.program == if engine.emcc.Some? then engine.emcc.value else "emcc")
  {
  }
}
