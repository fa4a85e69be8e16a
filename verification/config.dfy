/**
 * Build configuration of the playground build script: the target entry
 * module and the mode come from the command line, the output directory
 * from the PLAYGROUND environment variable.
 */
module Config {

  /** The entry module built when the command line names none. */
  const DefaultTarget := "js_playground_compiler"
  const DevelopmentFlag := "-development"
  const PrepublishFlag := "-prepublish"

  const PlaygroundVar := "PLAYGROUND"
  const DefaultPlayground := "../../playground"
  const PlaygroundWarning := "PLAYGROUND env var unset, defaulting to " + DefaultPlayground

  predicate StartsWith(s: string, prefix: string) {
    |prefix| <= |s| && s[..|prefix|] == prefix
  }

  // ---------------------------------------------------------------------
  // Target entry module. argv is the whole process argument vector:
  // argv[0] is the node binary and argv[1] the script, so the user's own
  // arguments start at index 2.
  // ---------------------------------------------------------------------

  /** The entry module the command line selects. */
  function SelectedTarget(argv: seq<string>): (t: string)
    ensures !StartsWith(t, "-")
    ensures t == DefaultTarget || (|argv| > 2 && t == argv[|argv| - 1])
  {
    if |argv| > 2 && !StartsWith(argv[|argv| - 1], "-") then argv[|argv| - 1]
    else
      assert DefaultTarget[0] == 'j';
      DefaultTarget
  }

  /**
   * The script's top-level resolution: start from the default and replace
   * it by the last argument when there is a user argument that is not a flag.
   */
  method ResolveTarget(argv: seq<string>) returns (target: string)
    ensures |argv| > 2 && !StartsWith(argv[|argv| - 1], "-") ==> target == argv[|argv| - 1]
    ensures |argv| <= 2 || StartsWith(argv[|argv| - 1], "-") ==> target == DefaultTarget
    ensures target == SelectedTarget(argv)
  {
    target := DefaultTarget;
    if |argv| > 2 {
      var lastArg := argv[|argv| - 1];
      if !StartsWith(lastArg, "-") {
        target := lastArg;
      }
    }
  }

  /**
   * Only the very last argument is looked at: an entry module followed by
   * any flag is ignored and the default is built.
   */
  lemma FlagAfterEntryKeepsDefault(argv: seq<string>, entry: string, flag: string)
    requires StartsWith(flag, "-")
    ensures SelectedTarget(argv + [entry, flag]) == DefaultTarget
  {
  }

  // ---------------------------------------------------------------------
  // Mode
  // ---------------------------------------------------------------------

  /** Development mode: `-development` occurs anywhere in argv. */
  function IsDevelopment(argv: seq<string>): (dev: bool)
    ensures dev <==> exists i :: 0 <= i < |argv| && argv[i] == DevelopmentFlag
  {
    DevelopmentFlag in argv
  }

  /** The mode depends on which arguments are given, not on their order. */
  lemma DevelopmentIgnoresOrder(a: seq<string>, b: seq<string>)
    requires multiset(a) == multiset(b)
    ensures IsDevelopment(a) == IsDevelopment(b)
  {
    assert DevelopmentFlag in a <==> DevelopmentFlag in multiset(a);
    assert DevelopmentFlag in b <==> DevelopmentFlag in multiset(b);
  }

  /** The environment name and the flags spliced into the two compiler commands. */
  datatype ModeFlags = ModeFlags(env: string, ocamlFlag: string, jsooFlag: string)

  /** Empty, or ending in a space, so that it can be put right before the next flag. */
  predicate Spliceable(s: string) {
    s == [] || s[|s| - 1] == ' '
  }

  function FlagsFor(isDev: bool): (f: ModeFlags)
    ensures f.env == (if isDev then "development" else "production")
    ensures Spliceable(f.ocamlFlag) && Spliceable(f.jsooFlag)
    ensures isDev <==> f.ocamlFlag != []
    ensures isDev <==> f.jsooFlag != []
  {
    if isDev then ModeFlags("development", "-g ", "--pretty ")
    else ModeFlags("production", "", "")
  }

  // ---------------------------------------------------------------------
  // Output directory
  // ---------------------------------------------------------------------

  /** JavaScript treats an unset variable and an empty string alike as false. */
  predicate PlaygroundUnset(env: map<string, string>)
    ensures !PlaygroundUnset(env) <==> PlaygroundVar in env && |env[PlaygroundVar]| > 0
  {
    PlaygroundVar !in env || env[PlaygroundVar] == ""
  }

  /** The output directory the build uses. */
  function PlaygroundOf(env: map<string, string>): (p: string)
    ensures p != []
    ensures PlaygroundUnset(env) ==> p == DefaultPlayground
    ensures !PlaygroundUnset(env) ==> p == env[PlaygroundVar]
  {
    if PlaygroundUnset(env) then DefaultPlayground else env[PlaygroundVar]
  }

  /** The warnings printed while resolving the output directory. */
  function PlaygroundWarnings(env: map<string, string>): (w: seq<string>)
    ensures |w| <= 1
    ensures w != [] <==> PlaygroundUnset(env)
  {
    if PlaygroundUnset(env) then [PlaygroundWarning] else []
  }

  /** The environment after the script has filled in a missing PLAYGROUND. */
  function DefaultedEnv(env: map<string, string>): (e: map<string, string>)
    ensures PlaygroundVar in e && e[PlaygroundVar] == PlaygroundOf(env)
    ensures !PlaygroundUnset(e)
    ensures forall k :: k != PlaygroundVar ==> (k in e <==> k in env)
    ensures forall k :: k != PlaygroundVar && k in env ==> e[k] == env[k]
    ensures !PlaygroundUnset(env) ==> e == env
  {
    if PlaygroundUnset(env) then env[PlaygroundVar := DefaultPlayground] else env
  }
}
