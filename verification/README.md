# A verified model of the playground build script

`scripts/repl.js` builds the browser playground bundle of the compiler. It
does the following, in order:

1. Picks an output directory from the `PLAYGROUND` environment variable. When the variable is unset or empty, it falls back to `../../playground` and prints a warning.
2. Picks the entry module of the compiler from the last command-line argument, and the mode from `-development`.
3. Runs five shell commands, in the `jscomp` directory:
   - `touch` on the interface file;
   - `ocamlc.opt`, which compiles the entry module to `jsc.byte`;
   - `js_of_ocaml`, which compiles `jsc.byte` to `exports.js`;
   - `cp`, which copies the JavaScript runtime library into `<playground>/stdlib`;
   - `mv`, which moves `exports.js` into the playground.
4. If `-prepublish` was given, writes a `package.json` whose fields are projected from the repository's own manifest. The script spells its path as `<jscomp>/<PLAYGROUND>/package.json`, which is next to the bundle only when PLAYGROUND is relative (see Findings).

Every command goes through a runner that announces it and runs it. The
runner throws when the command exits with a non-zero status, and the
exception ends the script.

The model has six modules:

- `Config` (config.dfy) covers the target, the mode, the mode flags and the PLAYGROUND fallback, all as pure functions.
  `ResolveTarget` is the script's own assign-then-override code, proved against `SelectedTarget`.
- `Paths` (paths.dfy) covers the directories involved and how the shell resolves a relative playground directory against the `jscomp` working directory.
  It also holds the manifest path, both as the script spells it and corrected (see Findings).
- `ShellWords` (shell_words.dfy) models how a POSIX shell splits a command line at blanks.
  For paths made only of letters, digits and `/ . _ - + , : @ %`, which the shell reads literally, this lets the model state what argument vector each command line hands to its program.
- `Commands` (commands.dfy) holds:
  - the five command lines, built character for character as the script builds them;
  - the argument vector each one is meant to run;
  - proofs that the two agree;
  - proofs that the artifacts chain from one command to the next.
- `Manifest` (manifest.dfy) covers JSON values and the projection of the repository's manifest onto the ten fields of the publish manifest.
- `Script` (script.dfy) covers the process as a class:
  - the environment, the console, the log of commands handed to the shell, and the files written are fields the methods update;
  - the runner, the `prepare` loop, `prepublish` and the top-level sequence are methods;
  - each method is proved against the specification functions `Leading`, `Attempted`, `Transcript` and `ScriptExit`, whose meaning is proved in lemmas beside them.

The external commands are not modelled. The process receives an oracle
`shell: nat -> bool`, where `shell(k)` tells whether the k-th command it
starts exits with status zero. The repository's `package.json` reaches the
model already parsed, or as `None` when reading or parsing it fails. A second
oracle, `writable: string -> bool`, tells whether writing a file at a path
succeeds; when it does not, `writeFileSync` throws and the script ends with
`Exit.ManifestWriteFailed`.

Some behaviours of the code worth spelling out:

- Only the very last argument is considered as the entry module; when it starts with `-`, the default module is built. `FlagAfterEntryKeepsDefault` proves that `x.js js_compiler -development` builds the default module.
- The comment at `scripts/repl.js:16-17` says the entry module is passed "as a first parameter". The code reads the last one, and the model follows the code.
- The publish manifest has ten fields:
  - `name` and `main`, which are fixed;
  - eight copied fields: `version`, `license`, `description`, `repository`, `author`, `maintainers`, `bugs` and `homepage`.
- The warning flags `-w -30-40` are used in both modes. Development mode adds only `-g` for `ocamlc.opt` and `--pretty` for `js_of_ocaml`.

## Model

| member | source | states |
|---|---|---|
| `Config.SelectedTarget` | scripts/repl.js:119-128 | The target never starts with `-`. It is the default `js_playground_compiler` or, when there are user arguments, the last argument. |
| `Config.ResolveTarget` | scripts/repl.js:119-128 | With a user argument that does not start with `-`, the target is the last argument. Otherwise the default is kept. This agrees with `SelectedTarget`. |
| `Config.FlagAfterEntryKeepsDefault` | scripts/repl.js:121-128 | An entry module followed by any flag is ignored, and the default module is built. |
| `Config.IsDevelopment` | scripts/repl.js:130 | Development mode holds iff some argument equals `-development`. |
| `Config.DevelopmentIgnoresOrder` | scripts/repl.js:130 | Two argument vectors that differ only in order select the same mode. |
| `Config.FlagsFor` | scripts/repl.js:70-73 | The environment name is `development` or `production`. Each flag string is empty or ends in a space. A flag string is non-empty iff the mode is development. |
| `Config.PlaygroundUnset` | scripts/repl.js:57 | The fallback applies exactly when PLAYGROUND is missing or empty, so it is skipped iff the variable is present with a non-empty value. |
| `Config.PlaygroundOf` | scripts/repl.js:57-65 | The output directory is never empty. When PLAYGROUND is unset or empty it is `../../playground`; otherwise it is the variable's value verbatim. |
| `Config.PlaygroundWarnings` | scripts/repl.js:57-61 | At most one warning is printed, and exactly one iff PLAYGROUND is unset or empty. |
| `Config.DefaultedEnv` | scripts/repl.js:57-63 | Afterwards PLAYGROUND is set, non-empty and equal to the directory used. Every other variable is unchanged, and a set PLAYGROUND is left alone. |
| `Paths.Join` | scripts/repl.js:32-39 | A path joined from a directory and a name is one separator longer than the two pieces. |
| `Paths.JscompDir` | scripts/repl.js:32 | The `jscomp` directory is the root, a separator, then `jscomp`. |
| `Paths.SourceDir` | scripts/repl.js:33-39 | The source directory is `<root>/lib/4.06.1/unstable`. |
| `Paths.Resolve` | scripts/repl.js:41-46 | Resolving against the `jscomp` working directory keeps an absolute path unchanged. A relative one becomes the directory, a separator, then exactly the relative path. |
| `Paths.ManifestBesideBundle` | scripts/repl.js:89 | The corrected manifest path and the bundle `mv` produces are distinct files in the same playground directory. |
| `Paths.AsWrittenAgreesWhenRelative` | scripts/repl.js:113 | For a relative PLAYGROUND, the script's string-built manifest path equals the corrected one. |
| `Paths.ManifestFileAsWritten` | scripts/repl.js:113 | The script's manifest path is the `jscomp` directory, a separator, then PLAYGROUND followed by `/package.json`. So it always lies under `jscomp`, whatever PLAYGROUND is. |
| `Paths.AbsolutePlaygroundMisplacesManifest` | scripts/repl.js:113 | With PLAYGROUND `/tmp/playground`, the bundle goes to `/tmp/playground`, but the manifest path lies under `/repo/jscomp/` and outside the playground directory. |
| `Commands.Plan` | scripts/repl.js:76-89 | `prepare` issues exactly five command lines. |
| `Commands.MliFile` | scripts/repl.js:76 | The interface file is the source directory, a separator, then the entry name with `.mli`. |
| `Commands.MlFile` | scripts/repl.js:77 | The implementation file is the source directory, a separator, then the entry name with `.ml`. |
| `Commands.PathsAreWords` | scripts/repl.js:33-39 | When the root and the entry name contain no blanks, the source directory and the `.mli` and `.ml` paths are single shell words. |
| `Commands.WordsOfTouch` | scripts/repl.js:81 | The first command runs `touch` on the interface file alone. |
| `Commands.WordsOfModeFlags` | scripts/repl.js:71-73 | The mode flags add the word `-g`, or `--pretty`, in development and no word in production. |
| `Commands.WordsOfWarningFlags` | scripts/repl.js:83 | The fixed bytecode flags are the four words `-w -30-40 -no-check-prims -I`. |
| `Commands.WordsOfByteCompile` | scripts/repl.js:82-84 | The bytecode command runs `ocamlc.opt` with, in order: the optional `-g`, the fixed flags, the source directory, the `.mli`, the `.ml`, and `-o jsc.byte`. |
| `Commands.WordsOfJsCompile` | scripts/repl.js:86 | The JavaScript command runs `js_of_ocaml compile jsc.byte`, then the optional `--pretty`, then `-o exports.js`. |
| `Commands.WordsOfCopy` | scripts/repl.js:88 | The copy command has three words: `cp`, the runtime glob, and `<playground>/stdlib`. |
| `Commands.WordsOfMove` | scripts/repl.js:89 | The move command has three words: `mv`, `./exports.js`, and the playground directory. |
| `Commands.PlanMeansSteps` | scripts/repl.js:76-89 | For paths without blanks, each of the five command lines splits into exactly the argument vector of its step. |
| `Commands.TouchedFileIsCompiled` | scripts/repl.js:81-83 | The interface file `touch` creates is an argument of the bytecode compiler. |
| `Commands.BytecodeFeedsJs` | scripts/repl.js:83-86 | The output of `ocamlc.opt` after `-o` is the input file of `js_of_ocaml compile`. |
| `Commands.BundleIsMoved` | scripts/repl.js:86-89 | The output of `js_of_ocaml` after `-o` is `exports.js`, and that file is the one `mv` moves. |
| `Commands.StepsChain` | scripts/repl.js:81-89 | All artifact links hold together: touched file, then bytecode, then bundle. Both staging commands target the playground. |
| `Commands.ArtifactsChain` | scripts/repl.js:81-89 | The same links hold for the words the shell actually hands to each program. |
| `Commands.ModeChangesOnlyCompilerFlags` | scripts/repl.js:70-89 | Switching the mode changes the two compiler commands and leaves `touch`, `cp` and `mv` identical. |
| `Manifest.CopyFields` | scripts/repl.js:99-106 | Every copied member has a requested key that the master has, and carries the master's value. |
| `Manifest.PublishManifest` | scripts/repl.js:96-108 | The publish manifest starts with the fixed `name` and ends with the fixed `main`. Every member in between is a copied key the master has, with the master's value. |
| `Manifest.LookupPublish` | scripts/repl.js:96-108 | Reading any key of the publish manifest gives: the fixed name for `name`; the master's value, or nothing, for the eight copied keys; the fixed entry for `main`; and nothing for anything else. |
| `Manifest.PublishFixedFields` | scripts/repl.js:98-107 | `name` is `rescript-compiler` and `main` is `exports.js`, whatever the master says. |
| `Manifest.PublishCopiesFields` | scripts/repl.js:99-106 | Each of the eight copied keys carries the master's value unchanged, or is absent when the master lacks it. |
| `Manifest.PublishKeysOnly` | scripts/repl.js:96-108 | No key outside the ten appears. |
| `Manifest.PublishKeysDistinct` | scripts/repl.js:96-108 | No key appears twice. |
| `Manifest.PublishIgnoresOtherFields` | scripts/repl.js:96-108 | Two masters that agree on the eight copied keys yield the same publish manifest. |
| `Manifest.PublishComplete` | scripts/repl.js:96-108 | A master with all eight fields yields exactly the ten keys, in the script's order. |
| `Script.WarningLines` | scripts/repl.js:59-61 | The fallback writes its warnings to standard error, one line per warning. |
| `Script.RunningLine` | scripts/repl.js:52 | The announcement goes to standard output and is `>>>>>> running command: ` followed by exactly the command. |
| `Script.Leading` | scripts/repl.js:51-55 | The count of leading successes: every command before it succeeded and, unless all did, the command at it failed. |
| `Script.Attempted` | scripts/repl.js:51-55 | No more commands start than were planned. |
| `Script.AttemptedMeans` | scripts/repl.js:51-55 | At least one command starts when any is planned. Every started command but the last succeeded, and when not all start, the last one started failed. |
| `Script.TranscriptLength` | scripts/repl.js:51-55 | Each command writes its announcement and at most one completion marker. |
| `Script.LeadingStops` | scripts/repl.js:53 | Once a command has failed, more commands do not change where the run stopped. |
| `Script.RunStopped` | scripts/repl.js:81-89 | The runner stops after all commands, or right after the first failure. It reports success iff none failed. |
| `Script.FailFast` | scripts/repl.js:51-55 | If command k is the first to fail, exactly k+1 commands start. The last line written announces command k, and no completion marker follows it. |
| `Script.TranscriptAllFinished` | scripts/repl.js:52-54 | When every command succeeds, the output alternates between each announcement and its completion marker. |
| `Script.AllSucceed` | scripts/repl.js:81-89 | All commands succeed iff the run of leading successes covers them all, and then all of them are started. |
| `Script.ScriptExitMeans` | scripts/repl.js:92-133 | The script fails on a command iff one of the five fails. After five successes: it fails reading the manifest iff `-prepublish` is given and the master is unavailable; it fails writing iff `-prepublish` is given, the master is readable and the write is refused; otherwise it completes. |
| `Script.ExitNamesFirstFailure` | scripts/repl.js:53 | The failure reported is the first command that fails. |
| `Script.Process.constructor` | scripts/repl.js:41-46 | A new process has its command line, environment, root, command outcomes, master manifest and write outcomes, and has written and run nothing. |
| `Script.Process.Exec` | scripts/repl.js:51-55 | One command is logged and announced. Its completion marker `<<<<<<` follows iff it succeeds, and its outcome is the oracle's for its position. |
| `Script.Process.ResolvePlayground` | scripts/repl.js:57-65 | The environment becomes the defaulted one and the directory the resolved one. The warnings are appended to the console. |
| `Script.Process.RunInOrder` | scripts/repl.js:81-89 | The commands started are the prefix of the given commands up to and including the first failure, and the console holds their transcript. Success iff every command succeeded. |
| `Script.Process.Prepare` | scripts/repl.js:70-90 | The same, for the five-command plan of the given mode and target. |
| `Script.Process.Prepublish` | scripts/repl.js:92-116 | With no readable master it fails and writes nothing. When writing at the script's own path `<jscomp>/<PLAYGROUND>/package.json` is refused, it fails and writes nothing. Otherwise it writes the publish manifest of the master at that path and nothing else. |
| `Script.Process.Build` | scripts/repl.js:119-133 | Runs `prepare` with the mode and target from argv, and the commands started and the console are as for `prepare`. The manifest is written at the script's own path iff all five commands succeeded, `-prepublish` is present, the master is readable and the write is accepted. The exit is `ScriptExit`. |
| `Script.Process.Run` | scripts/repl.js:57-133 | The same after the PLAYGROUND fallback: the environment is the defaulted one, and the console starts with the fallback's warnings. |

## Left out

- Running processes is left out: `child_process.execSync`, inherited stdio, and the exit status beyond zero versus non-zero. The oracle `shell` stands in for all of it.
- What the commands do to the filesystem (`touch`, `cp`, `mv`) and what the compilers produce is left out. Only the command lines, their order and their outcomes are modelled.
- Reading and parsing `package.json` is left out. The master manifest arrives parsed, or as `None` when either step fails.
- A master that parses to something other than an object is left out.
- The JSON text written (`JSON.stringify(…, null, 2)`) is left out. The publish manifest is the ordered list of members it would print.
- A member whose master value is undefined is absent from the output, because stringify drops it.
- JSON numbers are kept as their literal text.
- Paths.Join: Node's `path.join` normalisation (collapsing `..` and duplicate separators) is not modelled. Joining is concatenation with one `/`, and `__dirname/..` is the given repository root.
- Quoting, globbing, variable expansion, newlines, control operators (`;`, `&`, `|`), redirections and comments are left out of the shell model. The word-level lemmas require a root, entry name and playground directory made only of letters, digits and `/ . _ - + , : @ %` (`ShellSafe`), and `../lib/js/*.js` is kept as one unexpanded word.
- The informational lines at `scripts/repl.js:74`, `:85` and `:87` are left out: their wording has no bearing on the build. The runner's announcement and marker lines and the PLAYGROUND warning are modelled verbatim.
- The content of the exception that ends the process is left out. `Exit.CommandFailed` carries only the command that failed.
- Why a write is refused (a missing directory, permissions, a full disk) is left out. The oracle `writable` only says whether it is.
- `fs.writeFileSync` writes text; the model records the members the text would hold, under the path string the script builds.

## Findings

| source | as written | input that shows it | evidently intended | confidence | as-written member | corrected member |
|---|---|---|---|---|---|---|
| scripts/repl.js:113 | The manifest path is `jscompDir + "/" + playground + "/package.json"`, glued as strings. The `cp` and `mv` commands are instead resolved by the shell with `jscomp` as working directory. The process model writes at this as-written path (`Paths.ManifestFileAsWritten`). | PLAYGROUND=`/tmp/playground`: `mv` puts the bundle in `/tmp/playground`, but the manifest path is `<root>/jscomp//tmp/playground/package.json`. | The manifest is written in the same directory as the bundle, resolved against `jscomp` like the commands. | medium, not executed | `Paths.AbsolutePlaygroundMisplacesManifest` | `Paths.ManifestBesideBundle` |
