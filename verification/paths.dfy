/**
 * The directories the build script works with. The script runs every shell
 * command with the jscomp directory as its working directory, so a relative
 * PLAYGROUND is resolved against jscomp by the shell.
 */
module Paths {
  import opened Config

  const OcamlVersion := "4.06.1"

  /** Joining two path segments; Node's normalisation of `..` is not modelled. */
  function Join(dir: string, name: string): (p: string)
    ensures |p| == |dir| + 1 + |name|
  {
    dir + "/" + name
  }

  /** The working directory of every command: `<root>/jscomp`. */
  function JscompDir(root: string): (d: string)
    ensures StartsWith(d, root + "/") && d[|root| + 1..] == "jscomp"
  {
    Join(root, "jscomp")
  }

  /** Where the bundled compiler sources live: `<root>/lib/4.06.1/unstable`. */
  function SourceDir(root: string): (d: string)
    ensures d == root + "/lib/4.06.1/unstable"
  {
    Join(Join(Join(root, "lib"), OcamlVersion), "unstable")
  }

  predicate IsAbsolute(p: string) {
    StartsWith(p, "/")
  }

  /** The file a path names when it is used with working directory `cwd`. */
  function Resolve(cwd: string, p: string): (r: string)
    ensures IsAbsolute(p) ==> r == p
    ensures !IsAbsolute(p) ==> StartsWith(r, cwd + "/") && r[|cwd| + 1..] == p
  {
    if IsAbsolute(p) then p else Join(cwd, p)
  }

  /** The directory the staging commands (`cp`, `mv`) put the artifacts in. */
  function PlaygroundDir(root: string, playground: string): string {
    Resolve(JscompDir(root), playground)
  }

  /** Where `mv ./exports.js <playground>` leaves the bundle. */
  function BundleFile(root: string, playground: string): string {
    Join(PlaygroundDir(root, playground), "exports.js")
  }

  /**
   * The manifest path as the script spells it: the jscomp directory, a slash
   * and the PLAYGROUND value glued together as strings.
   */
  function ManifestFileAsWritten(root: string, playground: string): (p: string)
    ensures StartsWith(p, JscompDir(root) + "/")
    ensures p[|JscompDir(root)| + 1..] == playground + "/package.json"
  {
    var d := JscompDir(root) + "/";
    assert d + playground + "/package.json" == d + (playground + "/package.json");
    d + playground + "/package.json"
  }

  /** The manifest path resolved the way the shell resolves the staging commands. */
  function ManifestFile(root: string, playground: string): string {
    Join(PlaygroundDir(root, playground), "package.json")
  }

  /** The corrected manifest path and the bundle are side by side in the playground directory. */
  lemma ManifestBesideBundle(root: string, playground: string)
    ensures StartsWith(ManifestFile(root, playground), PlaygroundDir(root, playground) + "/")
    ensures StartsWith(BundleFile(root, playground), PlaygroundDir(root, playground) + "/")
    ensures ManifestFile(root, playground) != BundleFile(root, playground)
  {
    var d := PlaygroundDir(root, playground);
    assert ManifestFile(root, playground)[..|d| + 1] == d + "/";
    assert BundleFile(root, playground)[..|d| + 1] == d + "/";
    assert |"package.json"| != |"exports.js"|;
  }

  /** For a relative PLAYGROUND the spelling in the script names the right file. */
  lemma AsWrittenAgreesWhenRelative(root: string, playground: string)
    requires !IsAbsolute(playground)
    ensures ManifestFileAsWritten(root, playground) == ManifestFile(root, playground)
  {
  }

  /**
   * With an absolute PLAYGROUND the script writes the manifest under the
   * jscomp directory instead of next to the bundle.
   */
  lemma AbsolutePlaygroundMisplacesManifest()
    ensures PlaygroundDir("/repo", "/tmp/playground") == "/tmp/playground"
    ensures StartsWith(ManifestFileAsWritten("/repo", "/tmp/playground"), "/repo/jscomp/")
    ensures !StartsWith(ManifestFileAsWritten("/repo", "/tmp/playground"), PlaygroundDir("/repo", "/tmp/playground") + "/")
  {
    var pg := "/tmp/playground";
    assert pg[..1] == "/";
    var written := ManifestFileAsWritten("/repo", pg);
    assert JscompDir("/repo") + "/" == "/repo/jscomp/";
    assert written[1] == 'r';
  }
}
