/** The build configuration (`webpack.config.mjs`), apart from the manifest rewrite.

    Every `*.target.js` file under `src` is an entry point whose output name drops the
    `.target.js` suffix and the leading `src/`. The subtool folders, plus the global
    `_guzztool` pseudo-subtool, must be exactly the ids listed in `subtool_order.json`. A file
    under `src` is copied as a static file unless it is built or otherwise excluded, and the
    web-accessible resources are the static files, the source maps and the built target
    scripts. The file system is outside the model: directory listings are parameters. */
module Build {
  import opened Wrappers
  import opened Dicts
  import opened Seqs
  import Strings

  // ---------------------------------------------------------------- entry points

  const TARGET_SUFFIX: string := ".target.js"

  /** `s` ends with `suffix`, ignoring ASCII case (`suffix` is lower case). */
  predicate EndsWithIgnoringCase(s: string, suffix: string) {
    |suffix| <= |s| && Strings.ToLower(s[|s| - |suffix|..]) == suffix
  }

  /** The entry's output name: `item.replace(/\.target\.js$/i, '').replace(/^\.\/src\//, './')`. */
  function OutputName(item: string): string {
    var t := if EndsWithIgnoringCase(item, TARGET_SUFFIX) then item[..|item| - |TARGET_SUFFIX|] else item;
    if Strings.StartsWith(t, "./src/") then "./" + t[6..] else t
  }

  /** `./src/x.target.js` is built as `./x`. */
  lemma OutputNameOfTarget(x: string)
    ensures OutputName("./src/" + x + TARGET_SUFFIX) == "./" + x
  {
    var item := "./src/" + x + TARGET_SUFFIX;
    assert item[|item| - |TARGET_SUFFIX|..] == TARGET_SUFFIX;
    assert item[..|item| - |TARGET_SUFFIX|] == "./src/" + x;
    assert ("./src/" + x)[6..] == x;
  }

  /** The suffix is matched in any case: `./src/x.TARGET.JS`, or any other spelling that
      lower-cases to `.target.js`, is built as `./x` too. */
  lemma OutputNameIgnoresCase(x: string, suffix: string)
    requires Strings.ToLower(suffix) == TARGET_SUFFIX
    ensures OutputName("./src/" + x + suffix) == "./" + x
  {
    var item := "./src/" + x + suffix;
    assert |suffix| == |TARGET_SUFFIX|;
    assert item[|item| - |TARGET_SUFFIX|..] == suffix;
    assert item[..|item| - |TARGET_SUFFIX|] == "./src/" + x;
    assert ("./src/" + x)[6..] == x;
  }

  /** A name outside `./src/` without the suffix is kept as it is. */
  lemma OutputNameKeepsOthers(item: string)
    requires !EndsWithIgnoringCase(item, TARGET_SUFFIX) && !Strings.StartsWith(item, "./src/")
    ensures OutputName(item) == item
  {
  }

  // ---------------------------------------------------------------- subtool ids

  const GUZZTOOL: string := "_guzztool"

  /** `Object.keys(SUBTOOLS)`: one key per subtool folder, in listing order, then the global
      `_guzztool` entry (which keeps its place if a folder had that name). */
  function SubtoolKeys(dirs: seq<string>): (ks: seq<string>)
    ensures forall k :: k in ks <==> k in dirs || k == GUZZTOOL
  {
    var pairs := seq(|dirs|, i requires 0 <= i < |dirs| => (dirs[i], ()));
    var subtools := FromEntries(pairs);
    assert Keys(pairs) == dirs;
    forall k ensures k in Keys(Put(subtools, GUZZTOOL, ())) <==> k in dirs || k == GUZZTOOL {
      FromEntriesKeys(pairs, k);
      PutKeys(subtools, GUZZTOOL, ());
    }
    Keys(Put(subtools, GUZZTOOL, ()))
  }

  /** The elements of `s` that are not in `other`, in order. */
  function Without(s: seq<string>, other: seq<string>): (r: seq<string>)
    ensures forall x :: x in r <==> x in s && x !in other
  {
    if s == [] then []
    else
      assert s == [s[0]] + s[1..];
      (if s[0] in other then [] else [s[0]]) + Without(s[1..], other)
  }

  /** Lodash's `_.xor(a, b)`: the values in exactly one of the two lists, each once, those of
      `a` first. */
  function Xor(a: seq<string>, b: seq<string>): (r: seq<string>)
    ensures NoDuplicates(r)
  {
    Dedup(Without(a, b) + Without(b, a))
  }

  /** The symmetric difference is empty exactly when the two lists hold the same values. */
  lemma XorEmpty(a: seq<string>, b: seq<string>)
    ensures Xor(a, b) == [] <==> forall x :: x in a <==> x in b
  {
    var w := Without(a, b) + Without(b, a);
    if Xor(a, b) == [] {
      forall x ensures x in a <==> x in b {
        assert x !in w;
      }
    } else {
      var x := Xor(a, b)[0];
      assert x in w;
    }
  }

  /** The consistency check: it throws, naming the offending ids, unless they agree. */
  function CheckSubtoolOrder(dirs: seq<string>, order: seq<string>): Result<()> {
    var diff := Xor(SubtoolKeys(dirs), order);
    if diff != [] then
      Err("Some keys are in only one of SUBTOOLS or SUBTOOL_ORDER: " + Strings.Join(diff, ","))
    else Ok(())
  }

  /** The check passes exactly when `subtool_order.json` lists every subtool folder and
      `_guzztool`, and nothing else. */
  lemma CheckSubtoolOrderSpec(dirs: seq<string>, order: seq<string>)
    ensures CheckSubtoolOrder(dirs, order).Ok? <==>
      forall x :: x in order <==> x in dirs || x == GUZZTOOL
  {
    XorEmpty(SubtoolKeys(dirs), order);
  }

  // ---------------------------------------------------------------- static files

  /** The regular expression `/(?:^|\/)lib\//i` matches at `i`: a folder named `lib`, in any
      case, starts there. */
  predicate LibAt(path: string, i: nat) {
    i + 4 <= |path| && (i == 0 || path[i - 1] == '/') && Strings.ToLower(path[i..i + 4]) == "lib/"
  }

  /** `/lib/` in any case starts at `i`. */
  predicate SlashLibAt(path: string, i: nat) {
    i + 5 <= |path| && path[i] == '/' && Strings.ToLower(path[i + 1..i + 5]) == "lib/"
  }

  /** Some position of `path` starts `/lib/`. */
  function HasSlashLib(path: string): (r: bool)
    ensures r <==> exists i :: 0 <= i < |path| && SlashLibAt(path, i)
    decreases |path|
  {
    if |path| < 5 then
      assert forall i :: 0 <= i < |path| ==> !SlashLibAt(path, i);
      false
    else if SlashLibAt(path, 0) then true
    else
      var rest := HasSlashLib(path[1..]);
      assert forall i :: 0 <= i < |path| - 1 ==> (SlashLibAt(path, i + 1) <==> SlashLibAt(path[1..], i)) by {
        forall i | 0 <= i < |path| - 1 ensures SlashLibAt(path, i + 1) <==> SlashLibAt(path[1..], i) {
          if i + 6 <= |path| {
            assert path[i + 2..i + 6] == path[1..][i + 1..i + 5];
          }
        }
      }
      assert rest ==> exists i :: 0 <= i < |path| && SlashLibAt(path, i) by {
        if rest {
          var i :| 0 <= i < |path| - 1 && SlashLibAt(path[1..], i);
          assert SlashLibAt(path, i + 1);
        }
      }
      assert (exists i :: 0 <= i < |path| && SlashLibAt(path, i)) ==> rest by {
        if exists i :: 0 <= i < |path| && SlashLibAt(path, i) {
          var i :| 0 <= i < |path| && SlashLibAt(path, i);
          assert i != 0;
          assert SlashLibAt(path[1..], i - 1);
        }
      }
      rest
  }

  /** `/(?:^|\/)lib\//i.test(path)`: the path is inside a `lib` folder. */
  function InLibFolder(path: string): (r: bool)
    ensures r <==> exists i :: 0 <= i < |path| && LibAt(path, i)
  {
    var r := LibAt(path, 0) || HasSlashLib(path);
    assert forall i :: 0 <= i < |path| - 1 ==> (LibAt(path, i + 1) <==> SlashLibAt(path, i)) by {
      forall i | 0 <= i < |path| - 1 ensures LibAt(path, i + 1) <==> SlashLibAt(path, i) {
        if i + 5 <= |path| {
          assert path[i + 1..i + 5] == path[i + 1..i + 1 + 4];
        }
      }
    }
    assert r ==> exists i :: 0 <= i < |path| && LibAt(path, i) by {
      if r && !LibAt(path, 0) {
        var i :| 0 <= i < |path| && SlashLibAt(path, i);
        assert LibAt(path, i + 1);
      }
    }
    assert (exists i :: 0 <= i < |path| && LibAt(path, i)) ==> r by {
      if exists i :: 0 <= i < |path| && LibAt(path, i) {
        var i :| 0 <= i < |path| && LibAt(path, i);
        if i != 0 {
          assert SlashLibAt(path, i - 1);
        }
      }
    }
    r
  }

  /** `path.basename(p)` of a file path: what follows the last `/`. */
  function Basename(p: string): (r: string)
    ensures |r| <= |p| && r == p[|p| - |r|..]
    ensures '/' !in r
    ensures |r| < |p| ==> p[|p| - |r| - 1] == '/'
  {
    if p == [] || p[|p| - 1] == '/' then []
    else
      var r := Basename(p[..|p| - 1]);
      assert p[..|p| - 1][|p| - 1 - |r|..] == p[|p| - 1 - |r|..|p| - 1];
      r + [p[|p| - 1]]
  }

  /** The path without one leading `./`. */
  function StripDotSlash(p: string): (r: string)
    ensures Strings.StartsWith(p, "./") ==> "./" + r == p
    ensures !Strings.StartsWith(p, "./") ==> r == p
  {
    if Strings.StartsWith(p, "./") then p[2..] else p
  }

  /** `path.relative(e, p) == ''`: both name the same file, once a leading `./` is ignored. */
  predicate SamePath(e: string, p: string) {
    StripDotSlash(e) == StripDotSlash(p)
  }

  /** `isStaticFile(p)`, with `entryFiles` the flattened values of the entry object. */
  predicate IsStaticFile(p: string, entryFiles: seq<string>) {
    !(p == "src/manifest.json"
      || (Strings.EndsWith(p, ".js") && !InLibFolder(p))
      || Strings.EndsWith(p, ".handlebars")
      || (exists e :: e in entryFiles && SamePath(e, p))
      || Basename(p) == ".DS_Store")
  }

  /** The manifest, scripts outside `lib` folders, templates, entry points and `.DS_Store`
      files are not static. */
  lemma NotStatic(p: string, entryFiles: seq<string>)
    requires p == "src/manifest.json" || (Strings.EndsWith(p, ".js") && !InLibFolder(p))
      || Strings.EndsWith(p, ".handlebars") || p in entryFiles || Basename(p) == ".DS_Store"
    ensures !IsStaticFile(p, entryFiles)
  {
    if p in entryFiles {
      assert SamePath(p, p);
    }
  }

  /** An entry point is never copied, even from a `lib` folder: `./src/x.target.js` is not
      static as `src/x.target.js`. */
  lemma TargetEntryNotStatic(x: string, entryFiles: seq<string>)
    requires "./src/" + x + TARGET_SUFFIX in entryFiles
    ensures !IsStaticFile("src/" + x + TARGET_SUFFIX, entryFiles)
  {
    var e := "./src/" + x + TARGET_SUFFIX;
    assert e[2..] == "src/" + x + TARGET_SUFFIX;
    assert ("src/" + x + TARGET_SUFFIX)[0] == 's';
    assert SamePath(e, "src/" + x + TARGET_SUFFIX);
  }

  /** A script in a `lib` folder (in any case) is static unless it is an entry point. */
  lemma LibScriptStatic(dir: string, name: string, entryFiles: seq<string>)
    requires forall e :: e in entryFiles ==> !SamePath(e, dir + "/lib/" + name + ".js")
    requires '/' !in name
    ensures IsStaticFile(dir + "/lib/" + name + ".js", entryFiles)
  {
    var p := dir + "/lib/" + name + ".js";
    LibScriptShape(dir, name, p);
    BasenameOfName(p, name + ".js");
  }

  /** What the exclusions test of a script in a `lib` folder. */
  lemma LibScriptShape(dir: string, name: string, p: string)
    requires p == dir + "/lib/" + name + ".js"
    ensures InLibFolder(p) && Strings.EndsWith(p, ".js") && !Strings.EndsWith(p, ".handlebars")
    ensures p != "src/manifest.json"
    ensures |name + ".js"| < |p| && p[|p| - |name + ".js"|..] == name + ".js" && p[|p| - |name + ".js"| - 1] == '/'
  {
    assert p[|dir|] == '/' && p[|dir| + 1..|dir| + 5] == "lib/";
    assert LibAt(p, |dir| + 1);
    assert p[|p| - 3..] == ".js";
    assert p[|p| - 2] == 'j';
  }

  /** The basename of `p` is its last segment. */
  lemma BasenameOfName(p: string, last: string)
    requires |last| <= |p| && p[|p| - |last|..] == last && '/' !in last
    requires |last| < |p| ==> p[|p| - |last| - 1] == '/'
    ensures Basename(p) == last
  {
  }

  // ---------------------------------------------------------------- web-accessible resources

  /** The flattened values of the entry object: every file that is built. */
  function EntryFiles(entry: Dict<seq<string>>): (fs: seq<string>)
    ensures forall f :: f in fs <==> exists i :: 0 <= i < |entry| && f in entry[i].1
  {
    if entry == [] then []
    else
      var rest := EntryFiles(entry[1..]);
      assert forall i :: 1 <= i < |entry| ==> entry[i] == entry[1..][i - 1];
      assert forall f :: (exists i :: 1 <= i < |entry| && f in entry[i].1) ==> f in rest by {
        forall f | exists i :: 1 <= i < |entry| && f in entry[i].1 ensures f in rest {
          var i :| 1 <= i < |entry| && f in entry[i].1;
          assert f in entry[1..][i - 1].1;
        }
      }
      entry[0].1 + rest
  }

  /** The built scripts of one entry `k`: `k.js` without a leading `./`, once per target file. */
  function ScriptsOf(k: string, files: seq<string>): seq<string> {
    if files == [] then []
    else
      var first := if Strings.EndsWith(files[0], TARGET_SUFFIX) then [StripDotSlash(k) + ".js"] else [];
      first + ScriptsOf(k, files[1..])
  }

  /** The built target scripts among the entries, in entry order. */
  function TargetScripts(entry: Dict<seq<string>>): seq<string> {
    if entry == [] then [] else ScriptsOf(entry[0].0, entry[0].1) + TargetScripts(entry[1..])
  }

  /** The entries `entryPlus` makes of target files: each under its output name. */
  function TargetEntry(files: seq<string>): (entry: Dict<seq<string>>)
    ensures |entry| == |files|
  {
    seq(|files|, i requires 0 <= i < |files| => (OutputName(files[i]), [files[i]]))
  }

  /** The target files `./src/x.target.js` are served as `x.js`, in order. */
  lemma {:induction false} TargetScriptsOfTargets(files: seq<string>, names: seq<string>)
    requires |files| == |names|
    requires forall i :: 0 <= i < |files| ==> files[i] == "./src/" + names[i] + TARGET_SUFFIX
    ensures var r := TargetScripts(TargetEntry(files));
      |r| == |names| && forall i :: 0 <= i < |r| ==> r[i] == names[i] + ".js"
  {
    var outs := seq(|names|, i requires 0 <= i < |names| => names[i] + ".js");
    forall i | 0 <= i < |files| ensures ScriptsOf(OutputName(files[i]), [files[i]]) == [outs[i]] {
      ScriptOfTarget(files[i], names[i]);
    }
    TargetScriptsEach(files, outs);
  }

  /** Entries of one file each give the scripts of those files, in order. */
  lemma {:induction false} TargetScriptsEach(files: seq<string>, outs: seq<string>)
    requires |files| == |outs|
    requires forall i :: 0 <= i < |files| ==> ScriptsOf(OutputName(files[i]), [files[i]]) == [outs[i]]
    ensures TargetScripts(TargetEntry(files)) == outs
  {
    if files != [] {
      var entry := TargetEntry(files);
      assert entry[1..] == TargetEntry(files[1..]);
      assert entry[0] == (OutputName(files[0]), [files[0]]);
      TargetScriptsEach(files[1..], outs[1..]);
      assert outs == [outs[0]] + outs[1..];
    }
  }

  /** One target file gives one script. */
  lemma ScriptOfTarget(file: string, name: string)
    requires file == "./src/" + name + TARGET_SUFFIX
    ensures ScriptsOf(OutputName(file), [file]) == [name + ".js"]
  {
    OutputNameOfTarget(name);
    assert file[|file| - |TARGET_SUFFIX|..] == TARGET_SUFFIX;
    assert StripDotSlash("./" + name) == name;
  }

  /** The static files among `srcFiles` (paths relative to `src`). */
  function StaticFiles(srcFiles: seq<string>, entryFiles: seq<string>): (r: seq<string>)
    ensures forall f :: f in r <==> f in srcFiles && IsStaticFile("src/" + f, entryFiles)
  {
    if srcFiles == [] then []
    else
      assert srcFiles == [srcFiles[0]] + srcFiles[1..];
      (if IsStaticFile("src/" + srcFiles[0], entryFiles) then [srcFiles[0]] else [])
        + StaticFiles(srcFiles[1..], entryFiles)
  }

  /** The web-accessible resources: the static files, then the source maps, then the built
      target scripts. */
  function WebAccessibleResources(srcFiles: seq<string>, mapFiles: seq<string>, entry: Dict<seq<string>>): (r: seq<string>)
    ensures forall f :: f in srcFiles && IsStaticFile("src/" + f, EntryFiles(entry)) ==> f in r
    ensures forall f :: f in mapFiles ==> f in r
    ensures forall f :: f in TargetScripts(entry) ==> f in r
    ensures forall f :: f in r ==>
      (f in srcFiles && IsStaticFile("src/" + f, EntryFiles(entry))) || f in mapFiles || f in TargetScripts(entry)
  {
    StaticFiles(srcFiles, EntryFiles(entry)) + mapFiles + TargetScripts(entry)
  }

  // ---------------------------------------------------------------- build targets

  const BUILD_TARGETS: seq<string> := ["chrome", "firefox"]

  /** The configurations `BUILD_TARGET` asks for: every target for `*` (also when unset), the
      one named, or a thrown error for anything else (the empty string included). */
  function SelectTargets(buildTarget: Option<string>): (r: Result<seq<string>>)
    ensures r.Ok? ==> forall t :: t in r.value ==> t in BUILD_TARGETS
  {
    var t := buildTarget.GetOr("*");
    if t !in BUILD_TARGETS && t != "*" then
      Err("Invalid BUILD_TARGET " + t + ". Valid options: " + Strings.Join(BUILD_TARGETS, ", "))
    else if t == "*" then Ok(BUILD_TARGETS)
    else Ok([t])
  }

  /** A known target builds just that one, `*` or no setting builds both, anything else
      throws. */
  lemma SelectTargetsSpec(buildTarget: Option<string>)
    ensures buildTarget == None || buildTarget == Some("*") <==> SelectTargets(buildTarget) == Ok(BUILD_TARGETS)
    ensures buildTarget.Some? && buildTarget.value in BUILD_TARGETS ==>
      SelectTargets(buildTarget) == Ok([buildTarget.value])
    ensures SelectTargets(buildTarget).Err? <==>
      buildTarget.Some? && buildTarget.value !in BUILD_TARGETS && buildTarget.value != "*"
  {
  }
}
