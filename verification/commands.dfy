/**
 * The five shell commands of the `prepare` stage, built as strings exactly
 * as the script builds them, and the argument vectors the shell makes of them.
 */
module Commands {
  import opened Config
  import opened Paths
  import opened ShellWords
  import opened Wrappers

  const Ocamlc := "ocamlc.opt"
  const Jsoo := "js_of_ocaml"

  /** The interface file of the entry module, in the source directory. */
  function MliFile(root: string, target: string): (f: string)
    ensures StartsWith(f, SourceDir(root) + "/") && f[|SourceDir(root)| + 1..] == target + ".mli"
  {
    Join(SourceDir(root), target + ".mli")
  }

  /** The implementation file of the entry module, in the source directory. */
  function MlFile(root: string, target: string): (f: string)
    ensures StartsWith(f, SourceDir(root) + "/") && f[|SourceDir(root)| + 1..] == target + ".ml"
  {
    Join(SourceDir(root), target + ".ml")
  }

  /**
   * The command lines of `prepare`, in the order it runs them:
   * make sure the interface file exists, compile to bytecode, compile the
   * bytecode to JavaScript, copy the runtime library, move the bundle.
   */
  function Plan(root: string, isDev: bool, target: string, playground: string): (plan: seq<string>)
    ensures |plan| == 5
  {
    var flags := FlagsFor(isDev);
    var mli := MliFile(root, target);
    var ml := MlFile(root, target);
    [ "touch " + mli,
      Ocamlc + " " + flags.ocamlFlag + "-w -30-40 -no-check-prims -I " + SourceDir(root) + " " + mli + " " + ml + " -o jsc.byte ",
      Jsoo + " compile jsc.byte " + flags.jsooFlag + "-o exports.js",
      "cp ../lib/js/*.js " + playground + "/stdlib",
      "mv ./exports.js " + playground ]
  }

  /** The program and arguments each step of `prepare` is meant to run. */
  function StepArgv(step: nat, root: string, isDev: bool, target: string, playground: string): seq<string>
    requires step < 5
  {
    var mli := MliFile(root, target);
    var ml := MlFile(root, target);
    match step
    case 0 => ["touch", mli]
    case 1 => [Ocamlc] + (if isDev then ["-g"] else []) + ["-w", "-30-40", "-no-check-prims", "-I"]
              + [SourceDir(root)] + [mli] + [ml] + ["-o", "jsc.byte"]
    case 2 => [Jsoo, "compile", "jsc.byte"] + (if isDev then ["--pretty"] else []) + ["-o", "exports.js"]
    case 3 => ["cp", "../lib/js/*.js", playground + "/stdlib"]
    case 4 => ["mv", "./exports.js", playground]
  }

  /**
   * Paths made only of characters the shell reads literally, so that it
   * keeps each of them in one piece and runs no other command because of it.
   */
  predicate ShellSafe(root: string, target: string, playground: string) {
    SafeText(root) && SafeText(target) && playground != [] && SafeText(playground)
  }

  lemma PathsAreWords(root: string, target: string)
    requires NoBlank(root) && NoBlank(target)
    ensures IsWord(SourceDir(root)) && IsWord(MliFile(root, target)) && IsWord(MlFile(root, target))
  {
    assert NoBlank("/lib/4.06.1/unstable");
    assert SourceDir(root) == root + "/lib/4.06.1/unstable";
    assert NoBlank("/") && NoBlank(".mli") && NoBlank(".ml");
    assert MliFile(root, target) == SourceDir(root) + "/" + target + ".mli";
    assert MlFile(root, target) == SourceDir(root) + "/" + target + ".ml";
  }

  lemma WordsOfTwoWords(a: string, b: string)
    requires IsWord(a) && IsWord(b)
    ensures Words(a + " " + b) == [a, b]
  {
    WordThenSpace(a);
    WordsOfWord(b);
    WordsConcat(a + " ", b);
  }

  lemma WordsOfThreeWords(a: string, b: string, c: string)
    requires IsWord(a) && IsWord(b) && IsWord(c)
    ensures Words(a + " " + b + " " + c) == [a, b, c]
    ensures Words(a + " " + b + " " + c + " ") == [a, b, c]
  {
    WordThenSpace(a);
    WordsAppendWord(a + " ", b);
    WordsOfWord(c);
    WordsConcat(a + " " + b + " ", c);
    WordsAppendWord(a + " " + b + " ", c);
  }

  lemma WordsOfFourWords(a: string, b: string, c: string, d: string)
    requires IsWord(a) && IsWord(b) && IsWord(c) && IsWord(d)
    ensures Words(a + " " + b + " " + c + " " + d + " ") == [a, b, c, d]
  {
    WordThenSpace(a);
    WordsAppendWord(a + " ", b);
    WordsAppendWord(a + " " + b + " ", c);
    WordsAppendWord(a + " " + b + " " + c + " ", d);
  }

  lemma WordsOfTouch(mli: string)
    requires IsWord(mli)
    ensures Words("touch " + mli) == ["touch", mli]
  {
    assert IsWord("touch");
    WordsOfTwoWords("touch", mli);
    assert "touch " + mli == "touch" + " " + mli;
  }

  lemma WordsOfModeFlags(isDev: bool)
    ensures Words(FlagsFor(isDev).ocamlFlag) == if isDev then ["-g"] else []
    ensures Words(FlagsFor(isDev).jsooFlag) == if isDev then ["--pretty"] else []
  {
    if isDev {
      assert IsWord("-g") && IsWord("--pretty");
      WordThenSpace("-g");
      WordThenSpace("--pretty");
      assert "-g " == "-g" + " " && "--pretty " == "--pretty" + " ";
    }
  }

  lemma WarningFlagsAreWords()
    ensures IsWord("-w") && IsWord("-30-40") && IsWord("-no-check-prims") && IsWord("-I")
  {
  }

  lemma WarningFlagsText()
    ensures "-w -30-40 -no-check-prims -I " == "-w" + " " + "-30-40" + " " + "-no-check-prims" + " " + "-I" + " "
  {
  }

  /** The fixed flags of the bytecode compiler: warnings 30 and 40 off, no primitive checks. */
  lemma WordsOfWarningFlags()
    ensures Words("-w -30-40 -no-check-prims -I ") == ["-w", "-30-40", "-no-check-prims", "-I"]
  {
    WarningFlagsAreWords();
    WordsOfFourWords("-w", "-30-40", "-no-check-prims", "-I");
    WarningFlagsText();
  }

  lemma WordsOfByteOutput()
    ensures Words(" -o jsc.byte ") == ["-o", "jsc.byte"]
  {
    assert IsWord("-o") && IsWord("jsc.byte");
    WordsOfSpace();
    WordsOfTwoWords("-o", "jsc.byte");
    WordsConcat(" ", "-o" + " " + "jsc.byte");
    WordsConcat(" " + ("-o" + " " + "jsc.byte"), " ");
    assert " -o jsc.byte " == " " + ("-o" + " " + "jsc.byte") + " ";
  }

  /** The words before the bytecode command's source directory, and the blank they end with. */
  lemma ByteCompileHead(a: string, flag: string, l1: string)
    requires EndsBlank(a) && (flag == [] || EndsBlank(flag)) && EndsBlank(l1)
    ensures EndsBlank(a + flag + l1)
    ensures Words(a + flag + l1) == Words(a) + Words(flag) + Words(l1)
  {
    var x1 := a + flag;
    WordsConcat(a, flag);
    assert EndsBlank(x1) by {
      assert x1[|x1| - 1] == if flag == [] then a[|a| - 1] else flag[|flag| - 1];
    }
    WordsConcat(x1, l1);
  }

  /** The three paths of the bytecode command, each one word, and the literal tail. */
  lemma ByteCompileTail(x: string, src: string, mli: string, ml: string, l2: string)
    requires EndsBlank(x) && l2 != [] && IsBlank(l2[0])
    requires IsWord(src) && IsWord(mli) && IsWord(ml)
    ensures Words(x + src + " " + mli + " " + ml + l2) == Words(x) + [src] + [mli] + [ml] + Words(l2)
  {
    var x3 := x + src + " ";
    var x4 := x3 + mli + " ";
    WordsAppendWord(x, src);
    WordsAppendWord(x3, mli);
    WordsOfWord(ml);
    WordsConcat(x4, ml);
    WordsConcat(x4 + ml, l2);
  }

  /** How the bytecode command line splits, whatever its literal pieces are. */
  lemma ByteCompileShape(a: string, flag: string, l1: string, src: string, mli: string, ml: string, l2: string)
    requires EndsBlank(a) && (flag == [] || EndsBlank(flag)) && EndsBlank(l1) && l2 != [] && IsBlank(l2[0])
    requires IsWord(src) && IsWord(mli) && IsWord(ml)
    ensures Words(a + flag + l1 + src + " " + mli + " " + ml + l2)
         == Words(a) + Words(flag) + Words(l1) + [src] + [mli] + [ml] + Words(l2)
  {
    ByteCompileHead(a, flag, l1);
    ByteCompileTail(a + flag + l1, src, mli, ml, l2);
  }

  lemma WordsOfByteCompile(isDev: bool, src: string, mli: string, ml: string)
    requires IsWord(src) && IsWord(mli) && IsWord(ml)
    ensures Words(Ocamlc + " " + FlagsFor(isDev).ocamlFlag + "-w -30-40 -no-check-prims -I " + src + " " + mli + " " + ml + " -o jsc.byte ")
         == [Ocamlc] + (if isDev then ["-g"] else []) + ["-w", "-30-40", "-no-check-prims", "-I"]
            + [src] + [mli] + [ml] + ["-o", "jsc.byte"]
  {
    var head, flag, warn, out := Ocamlc + " ", FlagsFor(isDev).ocamlFlag, "-w -30-40 -no-check-prims -I ", " -o jsc.byte ";
    assert EndsBlank(head) && EndsBlank(warn) && IsBlank(out[0]);
    assert flag == [] || EndsBlank(flag);
    assert IsWord(Ocamlc);
    WordThenSpace(Ocamlc);
    WordsOfWarningFlags();
    WordsOfByteOutput();
    WordsOfModeFlags(isDev);
    ByteCompileShape(head, flag, warn, src, mli, ml, out);
  }

  /** How the JavaScript compile command line splits, whatever its literal pieces are. */
  lemma FlagSpliceShape(head: string, flag: string, tail: string)
    requires EndsBlank(head) && (flag == [] || EndsBlank(flag))
    ensures Words(head + flag + tail) == Words(head) + Words(flag) + Words(tail)
  {
    WordsConcat(head, flag);
    var x := head + flag;
    assert EndsBlank(x) by {
      assert x[|x| - 1] == if flag == [] then head[|head| - 1] else flag[|flag| - 1];
    }
    WordsConcat(x, tail);
  }

  lemma WordsOfJsHead()
    ensures Words(Jsoo + " compile jsc.byte ") == [Jsoo, "compile", "jsc.byte"]
  {
    assert IsWord(Jsoo) && IsWord("compile") && IsWord("jsc.byte");
    WordsOfThreeWords(Jsoo, "compile", "jsc.byte");
    assert Jsoo + " compile jsc.byte " == Jsoo + " " + "compile" + " " + "jsc.byte" + " ";
  }

  lemma WordsOfJsOutput()
    ensures Words("-o exports.js") == ["-o", "exports.js"]
  {
    assert IsWord("-o") && IsWord("exports.js");
    WordsOfTwoWords("-o", "exports.js");
    assert "-o exports.js" == "-o" + " " + "exports.js";
  }

  lemma WordsOfJsCompile(isDev: bool)
    ensures Words(Jsoo + " compile jsc.byte " + FlagsFor(isDev).jsooFlag + "-o exports.js")
         == [Jsoo, "compile", "jsc.byte"] + (if isDev then ["--pretty"] else []) + ["-o", "exports.js"]
  {
    var head := Jsoo + " compile jsc.byte ";
    assert EndsBlank(head);
    WordsOfJsHead();
    WordsOfJsOutput();
    WordsOfModeFlags(isDev);
    FlagSpliceShape(head, FlagsFor(isDev).jsooFlag, "-o exports.js");
  }

  lemma StdlibIsWord(playground: string)
    requires IsWord(playground)
    ensures IsWord(playground + "/stdlib")
  {
    assert NoBlank("/stdlib");
  }

  lemma WordsOfCopy(playground: string)
    requires IsWord(playground)
    ensures Words("cp ../lib/js/*.js " + playground + "/stdlib") == ["cp", "../lib/js/*.js", playground + "/stdlib"]
  {
    assert IsWord("cp") && IsWord("../lib/js/*.js");
    StdlibIsWord(playground);
    WordsOfThreeWords("cp", "../lib/js/*.js", playground + "/stdlib");
    assert "cp ../lib/js/*.js " + playground + "/stdlib" == "cp" + " " + "../lib/js/*.js" + " " + (playground + "/stdlib");
  }

  lemma WordsOfMove(playground: string)
    requires IsWord(playground)
    ensures Words("mv ./exports.js " + playground) == ["mv", "./exports.js", playground]
  {
    assert IsWord("mv") && IsWord("./exports.js");
    WordsOfThreeWords("mv", "./exports.js", playground);
    assert "mv ./exports.js " + playground == "mv" + " " + "./exports.js" + " " + playground;
  }

  /**
   * Every command line of the plan reaches its program as exactly the
   * intended argument vector, as long as the paths hold only characters
   * the shell reads literally.
   */
  lemma PlanMeansSteps(root: string, isDev: bool, target: string, playground: string)
    requires ShellSafe(root, target, playground)
    ensures forall k :: 0 <= k < 5 ==>
      Words(Plan(root, isDev, target, playground)[k]) == StepArgv(k, root, isDev, target, playground)
  {
    SafeTextHasNoBlank(root);
    SafeTextHasNoBlank(target);
    SafeTextHasNoBlank(playground);
    PathsAreWords(root, target);
    WordsOfTouch(MliFile(root, target));
    WordsOfByteCompile(isDev, SourceDir(root), MliFile(root, target), MlFile(root, target));
    WordsOfJsCompile(isDev);
    WordsOfCopy(playground);
    WordsOfMove(playground);
  }

  /** The argument that follows the first occurrence of `flag`. */
  function ArgumentOf(argv: seq<string>, flag: string): (r: Option<string>)
    ensures r.Some? ==> r.value in argv
  {
    if |argv| < 2 then None
    else if argv[0] == flag then Some(argv[1])
    else ArgumentOf(argv[1..], flag)
  }

  lemma {:induction false} ArgumentOfLast(prefix: seq<string>, flag: string, value: string)
    requires flag !in prefix
    ensures ArgumentOf(prefix + [flag, value], flag) == Some(value)
  {
    if prefix != [] {
      assert (prefix + [flag, value])[1..] == prefix[1..] + [flag, value];
      ArgumentOfLast(prefix[1..], flag, value);
    }
  }

  /**
   * The steps hand their artifacts on: the interface file `touch` makes is
   * the one compiled, the bytecode compiled to (`-o`) is the input of the
   * JavaScript compiler, whose output is the file moved into the playground,
   * and both staging commands target the playground.
   */
  lemma StepsChain(root: string, isDev: bool, target: string, playground: string)
    ensures StepArgv(0, root, isDev, target, playground)[1] in StepArgv(1, root, isDev, target, playground)
    ensures ArgumentOf(StepArgv(1, root, isDev, target, playground), "-o") == Some(StepArgv(2, root, isDev, target, playground)[2])
    ensures ArgumentOf(StepArgv(2, root, isDev, target, playground), "-o") == Some("exports.js")
    ensures StepArgv(4, root, isDev, target, playground)[1] == "./" + "exports.js"
    ensures StepArgv(3, root, isDev, target, playground)[2] == playground + "/stdlib"
    ensures StepArgv(4, root, isDev, target, playground)[2] == playground
  {
    TouchedFileIsCompiled(root, isDev, target, playground);
    BytecodeFeedsJs(root, isDev, target, playground);
    BundleIsMoved(root, isDev, target, playground);
  }

  lemma TouchedFileIsCompiled(root: string, isDev: bool, target: string, playground: string)
    ensures StepArgv(0, root, isDev, target, playground)[1] in StepArgv(1, root, isDev, target, playground)
  {
    var mli := MliFile(root, target);
    var s1 := StepArgv(1, root, isDev, target, playground);
    assert s1[|s1| - 4] == mli;
  }

  lemma BytecodeFeedsJs(root: string, isDev: bool, target: string, playground: string)
    ensures ArgumentOf(StepArgv(1, root, isDev, target, playground), "-o") == Some(StepArgv(2, root, isDev, target, playground)[2])
  {
    assert StepArgv(2, root, isDev, target, playground)[2] == "jsc.byte";
    ByteOutput(isDev, SourceDir(root), MliFile(root, target), MlFile(root, target));
  }

  lemma BundleIsMoved(root: string, isDev: bool, target: string, playground: string)
    ensures ArgumentOf(StepArgv(2, root, isDev, target, playground), "-o") == Some("exports.js")
    ensures StepArgv(4, root, isDev, target, playground)[1] == "./" + "exports.js"
  {
    JsOutput(isDev);
  }

  lemma ByteOutput(isDev: bool, src: string, mli: string, ml: string)
    requires |src| > 2 && |mli| > 2 && |ml| > 2
    ensures ArgumentOf([Ocamlc] + (if isDev then ["-g"] else []) + ["-w", "-30-40", "-no-check-prims", "-I"]
                       + [src] + [mli] + [ml] + ["-o", "jsc.byte"], "-o") == Some("jsc.byte")
  {
    var flags := [Ocamlc] + (if isDev then ["-g"] else []) + ["-w", "-30-40", "-no-check-prims", "-I"];
    assert "-o" !in flags;
    var paths := [src] + [mli] + [ml];
    assert "-o" !in paths;
    assert "-o" !in flags + paths;
    ArgumentOfLast(flags + paths, "-o", "jsc.byte");
    assert flags + paths == flags + [src] + [mli] + [ml];
  }

  lemma JsOutput(isDev: bool)
    ensures ArgumentOf([Jsoo, "compile", "jsc.byte"] + (if isDev then ["--pretty"] else []) + ["-o", "exports.js"], "-o")
         == Some("exports.js")
  {
    var jsArgs := [Jsoo, "compile", "jsc.byte"] + (if isDev then ["--pretty"] else []);
    assert "-o" !in jsArgs;
    ArgumentOfLast(jsArgs, "-o", "exports.js");
  }

  /** The same chain, read off the command lines the shell actually receives. */
  lemma ArtifactsChain(root: string, isDev: bool, target: string, playground: string)
    requires ShellSafe(root, target, playground)
    ensures var plan := Plan(root, isDev, target, playground);
      && |Words(plan[0])| == 2 && |Words(plan[2])| >= 3 && |Words(plan[3])| == 3 && |Words(plan[4])| == 3
      && Words(plan[0])[1] in Words(plan[1])
      && ArgumentOf(Words(plan[1]), "-o") == Some(Words(plan[2])[2])
      && ArgumentOf(Words(plan[2]), "-o") == Some("exports.js")
      && Words(plan[4])[1] == "./" + ArgumentOf(Words(plan[2]), "-o").value
      && Words(plan[3])[2] == playground + "/stdlib"
      && Words(plan[4])[2] == playground
  {
    PlanMeansSteps(root, isDev, target, playground);
    StepsChain(root, isDev, target, playground);
  }

  /** Only the two compiler invocations depend on the mode, and only by the debug and pretty-print flags. */
  lemma ModeChangesOnlyCompilerFlags(root: string, target: string, playground: string)
    ensures var dev := Plan(root, true, target, playground);
            var prod := Plan(root, false, target, playground);
      && dev[0] == prod[0] && dev[3] == prod[3] && dev[4] == prod[4]
      && dev[1] != prod[1] && dev[2] != prod[2]
  {
    var dev := Plan(root, true, target, playground);
    var prod := Plan(root, false, target, playground);
    assert |dev[1]| == |prod[1]| + 3;
    assert |dev[2]| == |prod[2]| + 9;
  }
}
