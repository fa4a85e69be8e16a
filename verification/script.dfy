/**
 * The build script as a process: it fills in PLAYGROUND, runs the five
 * commands of `prepare` one after the other, stopping at the first one
 * that fails, and then, when asked to, writes the publish manifest.
 *
 * The commands themselves are not modelled. The process is given an
 * oracle `shell`, where `shell(k)` is the outcome of the k-th command it
 * runs: true for exit status zero, false for anything else. In the
 * script, a non-zero status makes the command runner throw, and the
 * exception ends the process.
 */
module Script {
  import opened Wrappers
  import opened Config
  import opened Paths
  import opened Commands
  import opened Manifest

  /** A line the script writes to its standard output or standard error. */
  datatype Line = Stdout(text: string) | Stderr(text: string)

  /** How the process ends. */
  datatype Exit =
    | Completed
    | CommandFailed(command: string)  // the command runner threw for this command
    | ManifestUnavailable             // the repository's package.json could not be read or parsed
    | ManifestWriteFailed             // writing the publish manifest threw

  /** The announcement the runner prints before a command: a fixed prefix, then the command line. */
  function RunningLine(cmd: string): (l: Line)
    ensures l.Stdout? && StartsWith(l.text, ">>>>>> running command: ")
    ensures l.text[|">>>>>> running command: "|..] == cmd
  {
    Stdout(">>>>>> running command: " + cmd)
  }

  const FinishedLine := Stdout("<<<<<<")

  /** The warnings of the PLAYGROUND fallback, as written to standard error. */
  function WarningLines(env: map<string, string>): (lines: seq<Line>)
    ensures |lines| == |PlaygroundWarnings(env)|
    ensures forall i :: 0 <= i < |lines| ==> lines[i] == Stderr(PlaygroundWarnings(env)[i])
  {
    var ws := PlaygroundWarnings(env);
    seq(|ws|, i requires 0 <= i < |ws| => Stderr(ws[i]))
  }

  // ---------------------------------------------------------------------
  // Specification of the fail-fast runner
  // ---------------------------------------------------------------------

  /** How many of the commands numbered base, base+1, …, base+n-1 succeed before the first failure. */
  function Leading(shell: nat -> bool, base: nat, n: nat): (r: nat)
    ensures r <= n
    ensures forall j :: base <= j < base + r ==> shell(j)
    ensures r < n ==> !shell(base + r)
  {
    if n == 0 then 0
    else
      var p := Leading(shell, base, n - 1);
      if p < n - 1 then p
      else if shell(base + n - 1) then n
      else n - 1
  }

  /** How many of n commands are started: all when all succeed, else up to and including the first failure. */
  function Attempted(shell: nat -> bool, base: nat, n: nat): (r: nat)
    ensures r <= n
  {
    var k := Leading(shell, base, n);
    if k < n then k + 1 else n
  }

  /** The lines the runner writes for the commands `cmds`, started in order as commands base, base+1, … */
  function Transcript(cmds: seq<string>, shell: nat -> bool, base: nat): seq<Line>
  {
    if cmds == [] then []
    else
      var last := |cmds| - 1;
      Transcript(cmds[..last], shell, base) + [RunningLine(cmds[last])]
        + (if shell(base + last) then [FinishedLine] else [])
  }

  /**
   * Of n commands, at least one is started when there are any; every started
   * command but the last succeeded; and when not all are started, the last
   * started one failed.
   */
  lemma AttemptedMeans(shell: nat -> bool, base: nat, n: nat)
    ensures var r := Attempted(shell, base, n);
      && (n > 0 ==> r > 0)
      && (forall j :: base <= j < base + r - 1 ==> shell(j))
      && (r < n ==> !shell(base + r - 1))
  {
  }

  /** When a command fails, the last command started is the first one that failed. */
  lemma LastStarted(cmds: seq<string>, shell: nat -> bool, base: nat)
    requires Leading(shell, base, |cmds|) < |cmds|
    ensures var n := Attempted(shell, base, |cmds|);
      n > 0 && cmds[..n][n - 1] == cmds[Leading(shell, base, |cmds|)]
  {
  }

  /** One announcement per command, and at most one completion marker per command. */
  lemma {:induction false} TranscriptLength(cmds: seq<string>, shell: nat -> bool, base: nat)
    ensures |cmds| <= |Transcript(cmds, shell, base)| <= 2 * |cmds|
    decreases |cmds|
  {
    if cmds != [] {
      TranscriptLength(cmds[..|cmds| - 1], shell, base);
    }
  }

  /** Running one more command writes its announcement, then its marker if it succeeds. */
  lemma TranscriptStep(cmds: seq<string>, shell: nat -> bool, base: nat, i: nat)
    requires i < |cmds|
    ensures Transcript(cmds[..i + 1], shell, base)
         == Transcript(cmds[..i], shell, base) + [RunningLine(cmds[i])]
            + (if shell(base + i) then [FinishedLine] else [])
  {
    assert cmds[..i + 1][..i] == cmds[..i];
  }

  /** After i successes, command i decides whether the run of successes grows. */
  lemma LeadingStep(shell: nat -> bool, base: nat, i: nat)
    requires Leading(shell, base, i) == i
    ensures Leading(shell, base, i + 1) == if shell(base + i) then i + 1 else i
  {
  }

  /** Where the runner stops: after all n commands, or right after the first failure. */
  lemma RunStopped(shell: nat -> bool, base: nat, i: nat, n: nat, ok: bool)
    requires i <= n && (ok ==> i == n)
    requires Leading(shell, base, i) == if ok then i else i - 1
    ensures Attempted(shell, base, n) == i
    ensures ok <==> Leading(shell, base, n) == n
  {
    if !ok {
      LeadingStops(shell, base, i, n);
    }
  }

  /** Once a command has failed, running further commands changes nothing. */
  lemma {:induction false} LeadingStops(shell: nat -> bool, base: nat, m: nat, n: nat)
    requires Leading(shell, base, m) < m <= n
    ensures Leading(shell, base, n) == Leading(shell, base, m)
    decreases n
  {
    if n > m {
      LeadingStops(shell, base, m, n - 1);
    }
  }

  /**
   * If command k is the first to fail, exactly k+1 commands are started,
   * and the last line written is the announcement of command k, with no
   * completion marker after it.
   */
  lemma FailFast(plan: seq<string>, shell: nat -> bool, base: nat, k: nat)
    requires k < |plan| && !shell(base + k)
    requires forall j :: base <= j < base + k ==> shell(j)
    ensures Leading(shell, base, |plan|) == k
    ensures Attempted(shell, base, |plan|) == k + 1
    ensures var t := Transcript(plan[..k + 1], shell, base);
      |t| > 0 && t[|t| - 1] == RunningLine(plan[k])
  {
    LeadingStops(shell, base, k + 1, |plan|);
    TranscriptStep(plan, shell, base, k);
  }

  /** When every command succeeds, each announcement is followed by its completion marker. */
  lemma {:induction false} TranscriptAllFinished(cmds: seq<string>, shell: nat -> bool, base: nat)
    requires forall j :: base <= j < base + |cmds| ==> shell(j)
    ensures |Transcript(cmds, shell, base)| == 2 * |cmds|
    ensures forall j :: 0 <= j < |cmds| ==>
      Transcript(cmds, shell, base)[2 * j] == RunningLine(cmds[j])
      && Transcript(cmds, shell, base)[2 * j + 1] == FinishedLine
  {
    if cmds != [] {
      var last := |cmds| - 1;
      var init := cmds[..last];
      TranscriptAllFinished(init, shell, base);
      var t := Transcript(cmds, shell, base);
      assert t == Transcript(init, shell, base) + [RunningLine(cmds[last]), FinishedLine];
      forall j | 0 <= j < |cmds|
        ensures t[2 * j] == RunningLine(cmds[j]) && t[2 * j + 1] == FinishedLine
      {
        if j < last {
          assert cmds[j] == init[j];
        }
      }
    }
  }

  /** All commands are started, and the runner reports success, exactly when none of them fails. */
  lemma AllSucceed(plan: seq<string>, shell: nat -> bool, base: nat)
    ensures Leading(shell, base, |plan|) == |plan| <==> forall j :: base <= j < base + |plan| ==> shell(j)
    ensures Leading(shell, base, |plan|) == |plan| ==> Attempted(shell, base, |plan|) == |plan|
  {
  }

  /** The exit of the whole script, given the command line and the first five command outcomes. */
  function ScriptExit(argv: seq<string>, plan: seq<string>, shell: nat -> bool, base: nat,
                      master: Option<map<string, Json>>, writeOk: bool): Exit
    requires |plan| == 5
  {
    var k := Leading(shell, base, 5);
    if k < 5 then CommandFailed(plan[k])
    else if PrepublishFlag !in argv then Completed
    else if master.None? then ManifestUnavailable
    else if !writeOk then ManifestWriteFailed
    else Completed
  }

  /**
   * The script fails on a command iff one of the five fails; after five
   * successes, `-prepublish` ends in a read failure iff the master is
   * unavailable, in a write failure iff the write is refused, and otherwise
   * the script completes.
   */
  lemma ScriptExitMeans(argv: seq<string>, plan: seq<string>, shell: nat -> bool, base: nat,
                        master: Option<map<string, Json>>, writeOk: bool)
    requires |plan| == 5
    ensures var x := ScriptExit(argv, plan, shell, base, master, writeOk);
      && (x.CommandFailed? <==> exists j :: base <= j < base + 5 && !shell(j))
      && (x == ManifestUnavailable <==>
          (forall j :: base <= j < base + 5 ==> shell(j)) && PrepublishFlag in argv && master.None?)
      && (x == ManifestWriteFailed <==>
          (forall j :: base <= j < base + 5 ==> shell(j)) && PrepublishFlag in argv && master.Some? && !writeOk)
      && (x == Completed <==>
          (forall j :: base <= j < base + 5 ==> shell(j)) && (PrepublishFlag in argv ==> master.Some? && writeOk))
  {
  }

  /** The exit names the first command that fails, and only that one. */
  lemma ExitNamesFirstFailure(argv: seq<string>, plan: seq<string>, shell: nat -> bool, base: nat,
                              master: Option<map<string, Json>>, writeOk: bool, k: nat)
    requires |plan| == 5 && k < 5 && !shell(base + k)
    requires forall j :: base <= j < base + k ==> shell(j)
    ensures ScriptExit(argv, plan, shell, base, master, writeOk) == CommandFailed(plan[k])
  {
    FailFast(plan, shell, base, k);
  }

  // ---------------------------------------------------------------------
  // The process
  // ---------------------------------------------------------------------

  class Process {
    /** The full argument vector: node binary, script path, then the user's arguments. */
    const argv: seq<string>
    /** The repository root, the parent of the script's directory. */
    const root: string
    /** `shell(k)`: does the k-th command this process runs succeed? */
    const shell: nat -> bool
    /** The repository's package.json, parsed; None when reading or parsing it fails. */
    const master: Option<map<string, Json>>
    /** `writable(p)`: does writing a file at path p succeed (its directory exists and accepts it)? */
    const writable: string -> bool

    var env: map<string, string>
    /** The output directory read from the environment after the fallback. */
    var playground: string
    /** Everything written to standard output and standard error, in order. */
    var console: seq<Line>
    /** The command lines handed to the shell, in order. */
    var executed: seq<string>
    /** The files the script has written, by path. */
    var files: map<string, Members>

    constructor (argv: seq<string>, env: map<string, string>, root: string, shell: nat -> bool,
                 master: Option<map<string, Json>>, writable: string -> bool)
      ensures this.argv == argv && this.env == env && this.root == root
      ensures this.shell == shell && this.master == master && this.writable == writable
      ensures playground == "" && console == [] && executed == [] && files == map[]
    {
      this.argv := argv;
      this.env := env;
      this.root := root;
      this.shell := shell;
      this.master := master;
      this.writable := writable;
      playground := "";
      console := [];
      executed := [];
      files := map[];
    }

    /** Runs one command: announce it, run it, and mark its completion if it succeeds. */
    method Exec(cmd: string) returns (ok: bool)
      modifies this`console, this`executed
      ensures ok == shell(|old(executed)|)
      ensures executed == old(executed) + [cmd]
      ensures console == old(console) + [RunningLine(cmd)] + (if ok then [FinishedLine] else [])
    {
      console := console + [RunningLine(cmd)];
      ok := shell(|executed|);
      executed := executed + [cmd];
      if ok {
        console := console + [FinishedLine];
      }
    }

    /** Falls back to the default output directory when PLAYGROUND is unset or empty. */
    method ResolvePlayground()
      modifies this`env, this`console, this`playground
      ensures env == DefaultedEnv(old(env))
      ensures playground == PlaygroundOf(old(env))
      ensures console == old(console) + WarningLines(old(env))
    {
      if PlaygroundUnset(env) {
        console := console + [Stderr(PlaygroundWarning)];
        env := env[PlaygroundVar := DefaultPlayground];
      }
      playground := env[PlaygroundVar];
    }

    /**
     * Runs the commands in order through the runner and stops at the first
     * one that fails: the commands started are a prefix of `cmds`.
     */
    method RunInOrder(cmds: seq<string>) returns (ok: bool)
      modifies this`console, this`executed
      ensures var base := |old(executed)|;
              var n := Attempted(shell, base, |cmds|);
        && executed == old(executed) + cmds[..n]
        && console == old(console) + Transcript(cmds[..n], shell, base)
        && (ok <==> Leading(shell, base, |cmds|) == |cmds|)
    {
      ghost var base := |executed|;
      ok := true;
      var i := 0;
      while i < |cmds| && ok
        invariant 0 <= i <= |cmds|
        invariant executed == old(executed) + cmds[..i]
        invariant console == old(console) + Transcript(cmds[..i], shell, base)
        invariant Leading(shell, base, i) == if ok then i else i - 1
      {
        ok := Exec(cmds[i]);
        TranscriptStep(cmds, shell, base, i);
        LeadingStep(shell, base, i);
        i := i + 1;
      }
      RunStopped(shell, base, i, |cmds|, ok);
    }

    /** The `prepare` stage: the five commands of the plan, fail-fast. */
    method Prepare(isDev: bool, target: string) returns (ok: bool)
      modifies this`console, this`executed
      ensures var plan := Plan(root, isDev, target, playground);
              var base := |old(executed)|;
              var n := Attempted(shell, base, 5);
        && executed == old(executed) + plan[..n]
        && console == old(console) + Transcript(plan[..n], shell, base)
        && (ok <==> Leading(shell, base, 5) == 5)
    {
      ok := RunInOrder(Plan(root, isDev, target, playground));
    }

    /**
     * Reads the repository's manifest and writes the publish manifest at the
     * path the script spells out, which is next to the bundle only for a
     * relative PLAYGROUND.
     */
    method Prepublish() returns (exit: Exit)
      modifies this`files
      ensures master.None? ==> exit == ManifestUnavailable && files == old(files)
      ensures master.Some? && !writable(ManifestFileAsWritten(root, playground)) ==>
        exit == ManifestWriteFailed && files == old(files)
      ensures master.Some? && writable(ManifestFileAsWritten(root, playground)) ==>
        exit == Completed
        && files == old(files)[ManifestFileAsWritten(root, playground) := PublishManifest(master.value)]
    {
      if master.None? {
        return ManifestUnavailable;
      }
      var path := ManifestFileAsWritten(root, playground);
      if !writable(path) {
        return ManifestWriteFailed;
      }
      files := files[path := PublishManifest(master.value)];
      return Completed;
    }

    /**
     * The script after the PLAYGROUND fallback: the target and the mode from
     * argv, `prepare`, and `prepublish` when `-prepublish` is given and every
     * command of `prepare` succeeded.
     */
    method Build() returns (exit: Exit)
      modifies this`console, this`executed, this`files
      ensures var plan := Plan(root, IsDevelopment(argv), SelectedTarget(argv), playground);
              var base := |old(executed)|;
              var n := Attempted(shell, base, 5);
        && executed == old(executed) + plan[..n]
        && console == old(console) + Transcript(plan[..n], shell, base)
        && exit == ScriptExit(argv, plan, shell, base, master, writable(ManifestFileAsWritten(root, playground)))
      ensures var path := ManifestFileAsWritten(root, playground);
        files == if Leading(shell, |old(executed)|, 5) == 5 && PrepublishFlag in argv && master.Some? && writable(path)
                 then old(files)[path := PublishManifest(master.value)]
                 else old(files)
    {
      var target := ResolveTarget(argv);
      var isDev := IsDevelopment(argv);
      ghost var plan := Plan(root, isDev, target, playground);
      ghost var base := |executed|;
      var ok := Prepare(isDev, target);
      if !ok {
        // The runner threw for the last command it started.
        LastStarted(plan, shell, base);
        exit := CommandFailed(executed[|executed| - 1]);
      } else if PrepublishFlag in argv {
        exit := Prepublish();
      } else {
        exit := Completed;
      }
    }

    /** The script from top to bottom: the PLAYGROUND fallback, then the build. */
    method Run() returns (exit: Exit)
      modifies this`env, this`console, this`playground, this`executed, this`files
      ensures env == DefaultedEnv(old(env)) && playground == PlaygroundOf(old(env))
      ensures var plan := Plan(root, IsDevelopment(argv), SelectedTarget(argv), playground);
              var base := |old(executed)|;
              var n := Attempted(shell, base, 5);
        && executed == old(executed) + plan[..n]
        && console == old(console) + WarningLines(old(env)) + Transcript(plan[..n], shell, base)
        && exit == ScriptExit(argv, plan, shell, base, master, writable(ManifestFileAsWritten(root, playground)))
      ensures var path := ManifestFileAsWritten(root, playground);
        files == if Leading(shell, |old(executed)|, 5) == 5 && PrepublishFlag in argv && master.Some? && writable(path)
                 then old(files)[path := PublishManifest(master.value)]
                 else old(files)
    {
      ResolvePlayground();
      exit := Build();
    }
  }
}
