# cargo-build: the rustc-intercepting execution engine, in Dafny

This project models the core of `src/lib.rs` of cargo-build, a cargo
`ExecEngine` (`BuildEngine`) that sits between cargo and `rustc`. For every
command cargo wants to run it:

1. lets anything that is not a `rustc` invocation run unchanged;
2. scans a rustc invocation's arguments for `--crate-type bin`, the value
   after the first `--crate-name`, the value after the first `--out-dir` and
   any `--target`, and decides whether the crate is a build tool (a build
   script, or a host tool compiled while a target is configured);
3. for a binary that is not a build tool and a configured emit kind, rebuilds
   the command without its `--emit...` arguments, asking for
   `--emit dep-info,llvm-ir` plus `-C lto` (kinds `llvm35-*` and `em-*`) or
   `--emit dep-info,<kind>` (any other kind);
4. when a sysroot is configured, appends `--sysroot <path>` to every rustc
   command that is not a build tool;
5. for a binary that is not a build tool under an `llvm35-`/`em-` kind, after
   the first pass rewrites the metadata lines of `<out_dir>/<crate>.ll` into
   LLVM 3.5 syntax (before running the configured `opt`, else `opt`); for such
   a binary under `em-html` / `em-js` runs emcc to produce
   `<out_dir>/<crate>.html` / `.js`, and under any other `em-` kind aborts.
   Every other command ends with its first pass.

Modules:

- `Wrappers` (wrappers.dfy): `Option`, `Result`.
- `Text` (text.dfy): `StartsWith`, `ReplaceAll` (Rust's `str::replace`:
  left to right, non-overlapping), `SplitLines` (Rust's `BufRead::lines`) and
  `JoinLines` (each line written back followed by one `'\n'`).
- `Cargo` (cargo.dfy): the cargo types the engine uses. `CommandPrototype` is
  a class whose `Arg`, `Env` and `SetCwd` update it in place; `Command` is its
  value.
- `Engine` (engine.dfy): the engine configuration, classification (`IsBinary`,
  `ValueAfter`, `Classify`), planning (`PlanEmit`), the rebuilt argument list
  (`WithoutEmitFlags`, `RewrittenArgs`), the plan of one command (`ExecPlan`,
  a pure function) and the imperative `Exec`, whose loops copy the kept
  arguments and the environment into a fresh prototype, swap it in and append
  the sysroot in place, proved to produce exactly `ExecPlan`. Within
  `ExecPlan`, `FirstPass` is the command the first pass runs (src/lib.rs:95-121),
  `TransformFor` picks which `opt` runs on which IR file, `LlFile`
  (src/lib.rs:124-128), `PlanDispatch` is the emscripten step after the first
  pass (src/lib.rs:130-143) and
  `EmscriptenExtension` maps `em-html`/`em-js` to the output extension
  (src/lib.rs:132-136). `Finish` combines the plan with the results of the
  processes it runs.
- `ExecProperties` (exec_properties.dfy): what `exec` does to a whole
  command, stated over its arguments, environment and configuration.
- `Llvm35` (llvm35.dfy): the per-line metadata rewrite and the loop that
  writes each rewritten line and a `'\n'` into the output buffer.

The line rewrite is modelled as the code behaves. A line that starts with `!`
gets `metadata ` before every `!`, then every `distinct metadata` becomes
`metadata`, then its first nine characters (`metadata `) are dropped. So the
leading `!` stays, and `!7 = distinct !{}` becomes `!7 = metadata !{}`. A line
that does not start with `!` is never touched, even one that holds
`distinct metadata` (`Llvm35.RewriteLine`).

Two behaviours of the code are kept as they are. Only an argument that starts
with `--emit` is dropped, so a value passed as a separate argument after
`--emit` stays (`Engine.EmitValueArgumentKept`). A rewrite aborts when the
command removes an environment variable rather than setting it, because the
code unwraps each value (`ExecProperties.RemovedEnvFatal`).

## Model

| member | source | states |
|---|---|---|
| `Engine.EmitNeeds35Families` | src/lib.rs:33-38 | every kind of the form `llvm35-…` or `em-…` needs the transform and no kind at all does not; every `em-` kind, and in particular every kind emcc is run for, needs it |
| `Engine.IsBinary` | src/lib.rs:47-52 | true exactly when some adjacent pair of arguments is `--crate-type`, `bin` |
| `Engine.ValueAfter` | src/lib.rs:54-72 | a value is found exactly when the flag occurs with an argument after it, and it is the argument right after the first such occurrence |
| `Engine.ClassifyMeaning` | src/lib.rs:47-81 | classification aborts with the crate-name error when no `--crate-name` has a value, and with the out-dir error when only `--out-dir` is missing; otherwise the crate name and out dir are the values after the first `--crate-name` and `--out-dir`, the target flag is set exactly when some argument is `--target`, the binary flag exactly when some adjacent pair is `--crate-type`, `bin`, and the command is a build tool exactly when the crate is `build-script-build` or a target is configured and no argument is `--target` |
| `Engine.PlanEmit` | src/lib.rs:83-93 | rustc is asked for another emit exactly for a binary that is not a build tool under a configured kind; the transform is requested exactly when the kind is `llvm35-`/`em-`, and then rustc is asked for `llvm-ir`; otherwise for the kind verbatim; the plan's emit kind, which later decides on emcc, is the configured one; a non-binary or build tool gets no emit, no rustc emit, no transform |
| `Engine.WithoutEmitFlags` | src/lib.rs:98-100 | no kept argument starts with `--emit`, and every kept argument is one of the originals |
| `Engine.WithoutEmitFlagsAppend` | src/lib.rs:98-100 | the filter works piecewise, so kept arguments keep their relative order |
| `Engine.WithoutEmitFlagsCounts` | src/lib.rs:98-100 | every argument not starting with `--emit` is kept as many times as it occurs; every `--emit…` argument is gone |
| `Engine.EmitValueArgumentKept` | src/lib.rs:98-100 | of a separate `--emit`, `value` pair only the flag is removed |
| `Engine.CopyArgs` | src/lib.rs:98-100 | the loop appends exactly the arguments not starting with `--emit`, in order, and changes nothing else |
| `Engine.CopyEnvs` | src/lib.rs:102-104 | the loop succeeds exactly when no variable is removed, and then the new command's environment gains every pair unchanged |
| `Engine.Rebuild` | src/lib.rs:96-112 | the new command has the same tool, environment and directory, the kept arguments, then `--emit dep-info,<kind>`, then `-C lto` when asked; none when a variable is removed |
| `Engine.Exec` | src/lib.rs:41-126 | the command run first and the steps after it are exactly those of `ExecPlan` on the command as given |
| `Engine.Finish` | src/lib.rs:123-144 | a failed first pass is the result; otherwise no dispatch returns the first pass's result, emcc's result is the result when emcc runs, and an unsupported `em-` kind aborts (only then), naming that kind |
| `ExecProperties.NonRustcUnchanged` | src/lib.rs:42-45 | a command that does not run rustc runs exactly as given, with no transform and no emcc, and its result is the result |
| `ExecProperties.MissingFlagsFatal` | src/lib.rs:54-72 | a rustc command without `--crate-name <v>` aborts with that error; with it but without `--out-dir <v>` it aborts with the out-dir error |
| `ExecProperties.BuildToolUnchanged` | src/lib.rs:79-121 | a build script, or a host tool compiled with a target configured and no `--target`, runs exactly as given: no rewrite, no sysroot, no transform, no emcc |
| `ExecProperties.NonBinaryOnlySysroot` | src/lib.rs:83-121 | a rustc command that is neither a binary nor a build tool only gains `--sysroot <path>` at the end when one is configured |
| `ExecProperties.NoEmitNoRewrite` | src/lib.rs:83-121 | with no emit kind configured, a rustc command only gains the sysroot (when it is not a build tool) and nothing runs after it |
| `ExecProperties.RewrittenBinary` | src/lib.rs:83-128 | a binary that is not a build tool runs with its non-`--emit` arguments, `--emit dep-info,llvm-ir` and `-C lto` (or `--emit dep-info,<kind>`), then the sysroot; tool, environment and directory unchanged; the transform of `<out_dir>/<crate>.ll`, by the configured `opt` or else `opt`, follows exactly for `llvm35-`/`em-` kinds |
| `ExecProperties.RemovedEnvFatal` | src/lib.rs:102-104 | rewriting a command that removes an environment variable aborts |
| `ExecProperties.SysrootOnlyOutsideBuildTools` | src/lib.rs:117-121 | the first pass's arguments are the (possibly rewritten) arguments plus `--sysroot <path>` as the last two exactly when a sysroot is configured and the command is not a build tool |
| `ExecProperties.EmscriptenDispatch` | src/lib.rs:124-143 | emcc is reached only for an `em-` kind and only after the transform; once the transform is planned for an `em-` kind, emcc runs exactly for `em-html`/`em-js` (the configured emcc, else `emcc`) on `<out_dir>/<crate>.ll` with `-lGL -lSDL -s USE_SDL=2 -o <out_dir>/<crate>.html`/`.js`; any other `em-` kind aborts |
| `Llvm35.RewriteLine` | src/lib.rs:164-168 | a line not starting with `!` is unchanged; a line starting with `!` still starts with `!`; no `'\n'` is introduced |
| `Llvm35.MarkedLine` | src/lib.rs:165-167 | after the first two replacements a line that began with `!` begins with `metadata !`, so dropping nine characters is in bounds |
| `Llvm35.RewriteMetadataLine` | src/lib.rs:164-168 | a metadata line keeps its leading `!`, and the rest of it gets both replacements |
| `Llvm35.DistinctDefinition` | src/lib.rs:164-168 | `!<id> = distinct !<body>` (no references in it) becomes `!<id> = metadata !<body>` |
| `Llvm35.Transform` | src/lib.rs:160-172 | the output buffer is exactly every input line, rewritten, each followed by `'\n'` |
| `Llvm35.RewriteTextPlain` | src/lib.rs:162-172 | a module without lines starting with `!` is written back as read (a last line without `'\n'` gains one) |
| `Llvm35.RewriteTextLines` | src/lib.rs:162-172 | the output's lines are exactly the rewritten input lines, in order, and the output ends with `'\n'` unless empty |
| `Text.SplitJoin` | src/lib.rs:162-172 | lines written out each followed by `'\n'` are read back as exactly those lines |
| `Text.JoinSplit` | src/lib.rs:162-172 | reading a text's lines and writing each back with `'\n'` gives the text, plus a final `'\n'` when it lacked one |

## Left out

- Running processes (`do_exec`, `ProcessBuilder::exec`/`exec_with_output`) is
  not modelled: `Finish` takes the results of the first pass and of emcc as
  parameters, and `Plan.withOutput` records the mode both run in.
- The `ExecEngine` trait methods `exec` and `exec_with_output` (src/lib.rs:22-30),
  which only discard or unwrap the output, are glue and are not modelled.
- The file side of `llvm35_transform` is not modelled: opening and reading the
  `.ll` file, line read errors, writing the result back, locating the plugins
  through `/proc/self/exe`, spawning `opt` with its flags and pipes, and the
  `assert!` on its exit status. The plan records only which `opt` runs on which
  file (`TransformJob`), and `Finish` treats the transform as succeeding; its
  `unwrap` on an I/O error is not modelled.
- The emcc run itself is not modelled; only the program and the argument list
  it would run (`Dispatch.RunEmcc`).
- Text is modelled as characters. The `to_str().unwrap()` on arguments that
  are not valid UTF-8, and the UTF-8 bytes that `as_bytes` writes into the
  buffer, are not modelled.
- `CommandPrototype::new` reads the current directory and can fail; the
  directory is a parameter (`dir`) and the failure is not modelled.
- Cargo's `HashMap` iteration order is not modelled: `CopyEnvs` takes the
  variables in an arbitrary order, and the result does not depend on it.
