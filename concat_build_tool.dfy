/** Concatenating and minifying legacy script lists: normalising each concat
    target into a task, keying the resolved files for the minifier, building
    the minifier options, and deciding which files a finished target writes.
    Module resolution, file reads and the minifier itself are inputs. */
module ConcatBuildTool {
  import opened Wrappers
  import opened Strings

  /** A target's module list as written in the project settings: missing,
      a single string, or a list. */
  datatype ModuleList = Missing | One(name: string) | Many(names: seq<string>)

  /** The output file name of a target: `.js` is appended unless already
      there. */
  function JsOutputName(target: string): (r: string)
    ensures EndsWith(r, ".js")
    ensures EndsWith(target, ".js") ==> r == target
    ensures !EndsWith(target, ".js") ==> r == target + ".js"
  {
    if EndsWith(target, ".js") then target
    else
      EndsWithAppend(target, ".js");
      target + ".js"
  }

  /** Naming a name that is already an output name changes nothing. */
  lemma JsOutputNameIdempotent(target: string)
    ensures JsOutputName(JsOutputName(target)) == JsOutputName(target)
  {
  }

  /** The modules of a target, or `None` when the target is skipped: a
      missing list, or one whose `length` is 0 (an empty list or an empty
      string). A single string becomes a one-element list. */
  function NormaliseModules(m: ModuleList): (r: Option<seq<string>>)
    ensures r.None? <==> m.Missing? || (m.One? && m.name == "") || (m.Many? && m.names == [])
    ensures r.Some? ==> |r.value| > 0
    ensures m.One? && r.Some? ==> r.value == [m.name]
    ensures m.Many? && r.Some? ==> r.value == m.names
  {
    match m
    case Missing => None
    case One(name) => if name == "" then None else Some([name])
    case Many(names) => if names == [] then None else Some(names)
  }

  /** A concatenation task: the output name and the modules to join. */
  datatype Task = Task(output: string, modules: seq<string>)

  /** The tasks `build` starts, one per non-empty target, in target order. */
  function PlanTasks(targets: seq<(string, ModuleList)>): (r: seq<Task>)
    decreases |targets|
  {
    if targets == [] then []
    else
      (match NormaliseModules(targets[0].1)
       case None => []
       case Some(modules) => [Task(JsOutputName(targets[0].0), modules)])
      + PlanTasks(targets[1..])
  }

  /** The number of targets that are not skipped. */
  function NonEmptyTargets(targets: seq<(string, ModuleList)>): nat
    decreases |targets|
  {
    if targets == [] then 0
    else (if NormaliseModules(targets[0].1).Some? then 1 else 0) + NonEmptyTargets(targets[1..])
  }

  lemma {:induction false} PlanTasksAppend(a: seq<(string, ModuleList)>, b: seq<(string, ModuleList)>)
    ensures PlanTasks(a + b) == PlanTasks(a) + PlanTasks(b)
    decreases |a|
  {
    if a == [] {
      assert a + b == b;
    } else {
      assert (a + b)[0] == a[0];
      assert (a + b)[1..] == a[1..] + b;
      PlanTasksAppend(a[1..], b);
    }
  }

  /** One task per non-empty target; every task writes a `.js` file and has
      at least one module. */
  lemma {:induction false} PlanTasksShape(targets: seq<(string, ModuleList)>)
    ensures |PlanTasks(targets)| == NonEmptyTargets(targets)
    ensures forall t :: t in PlanTasks(targets) ==> EndsWith(t.output, ".js") && |t.modules| > 0
    decreases |targets|
  {
    if targets != [] {
      PlanTasksShape(targets[1..]);
    }
  }

  /** `build`: walks the targets, skipping empty ones, wrapping a string,
      naming the output, and starting one task each. `removedMaps` lists the
      stale source maps removed before each task starts, in the output
      folder; `join` is `upath.join`. */
  method Build(join: (string, string) -> string, outputJsFolder: string, targets: seq<(string, ModuleList)>)
    returns (tasks: seq<Task>, removedMaps: seq<string>)
    ensures tasks == PlanTasks(targets)
    ensures |removedMaps| == |tasks|
    ensures forall i :: 0 <= i < |tasks| ==> removedMaps[i] == join(outputJsFolder, tasks[i].output + ".map")
  {
    tasks := [];
    removedMaps := [];
    var i := 0;
    while i < |targets|
      invariant 0 <= i <= |targets|
      invariant tasks == PlanTasks(targets[..i])
      invariant |removedMaps| == |tasks|
      invariant forall k :: 0 <= k < |tasks| ==> removedMaps[k] == join(outputJsFolder, tasks[k].output + ".map")
    {
      var (target, list) := targets[i];
      assert targets[..i + 1] == targets[..i] + [targets[i]];
      PlanTasksAppend(targets[..i], [targets[i]]);
      i := i + 1;
      var modules: seq<string>;
      match list {
        case Missing =>
          continue;
        case One(name) =>
          if name == "" {
            continue;
          }
          modules := [name];
        case Many(names) =>
          if |names| == 0 {
            continue;
          }
          modules := names;
      }
      var o := target;
      if !EndsWith(o, ".js") {
        o := o + ".js";
      }
      removedMaps := removedMaps + [join(outputJsFolder, o + ".map")];
      tasks := tasks + [Task(o, modules)];
    }
    assert targets[..i] == targets;
  }

  /** The files of a target, keyed for the minifier: for the i-th resolved
      path, `'/' + relative(root, path)` maps to the i-th content; a later
      path with the same key overwrites an earlier one. */
  function KeyedFiles(keys: seq<string>, contents: seq<string>): (r: map<string, string>)
    requires |keys| == |contents|
    decreases |keys|
  {
    if keys == [] then map[]
    else KeyedFiles(keys[..|keys| - 1], contents[..|keys| - 1])[keys[|keys| - 1] := contents[|keys| - 1]]
  }

  /** The keys of the resolved paths. */
  function FileKeys(root: string, resolutions: seq<string>, relative: (string, string) -> string)
    : (r: seq<string>)
    ensures |r| == |resolutions|
    ensures forall i :: 0 <= i < |r| ==> r[i] == "/" + relative(root, resolutions[i])
  {
    seq(|resolutions|, i requires 0 <= i < |resolutions| => "/" + relative(root, resolutions[i]))
  }

  /** Every key is present, and holds the content of its last occurrence. */
  lemma {:induction false} KeyedFilesLookup(keys: seq<string>, contents: seq<string>)
    requires |keys| == |contents|
    ensures KeyedFiles(keys, contents).Keys == set k | k in keys
    ensures forall i :: 0 <= i < |keys| && (forall j :: i < j < |keys| ==> keys[j] != keys[i])
              ==> KeyedFiles(keys, contents)[keys[i]] == contents[i]
    decreases |keys|
  {
    if keys != [] {
      var n := |keys| - 1;
      KeyedFilesLookup(keys[..n], contents[..n]);
      forall i | 0 <= i < |keys| && (forall j :: i < j < |keys| ==> keys[j] != keys[i])
        ensures KeyedFiles(keys, contents)[keys[i]] == contents[i]
      {
        if i < n {
          assert keys[..n][i] == keys[i];
          assert forall j :: i < j < n ==> keys[..n][j] == keys[j];
        }
      }
    }
  }

  /** With distinct keys there is one entry per resolved path. */
  lemma DistinctKeysOneEntryEach(keys: seq<string>, contents: seq<string>)
    requires |keys| == |contents|
    requires forall i, j :: 0 <= i < j < |keys| ==> keys[i] != keys[j]
    ensures |KeyedFiles(keys, contents)| == |keys|
  {
    KeyedFilesLookup(keys, contents);
    DistinctSetSize(keys);
    assert KeyedFiles(keys, contents).Keys == set k | k in keys;
  }

  lemma {:induction false} DistinctSetSize(keys: seq<string>)
    requires forall i, j :: 0 <= i < j < |keys| ==> keys[i] != keys[j]
    ensures |set k | k in keys| == |keys|
    decreases |keys|
  {
    if keys != [] {
      var n := |keys| - 1;
      DistinctSetSize(keys[..n]);
      assert (set k | k in keys) == (set k | k in keys[..n]) + {keys[n]};
      assert keys[n] !in (set k | k in keys[..n]);
    }
  }

  /** `resolveThenReadFiles` after both `Promise.all` calls have settled:
      `resolutions` are the resolved paths and `contents` their texts, one
      per requested module. */
  method ResolveThenReadFiles(root: string, resolutions: seq<string>, contents: seq<string>,
                              relative: (string, string) -> string)
    returns (files: map<string, string>)
    requires |contents| == |resolutions|
    ensures files == KeyedFiles(FileKeys(root, resolutions, relative), contents)
  {
    ghost var keys := FileKeys(root, resolutions, relative);
    files := map[];
    var i := 0;
    while i < |resolutions|
      invariant 0 <= i <= |resolutions|
      invariant files == KeyedFiles(keys[..i], contents[..i])
    {
      var key := "/" + relative(root, resolutions[i]);
      files := files[key := contents[i]];
      assert keys[..i + 1][..i] == keys[..i] && contents[..i + 1][..i] == contents[..i];
      i := i + 1;
    }
    assert keys[..i] == keys && contents[..i] == contents;
  }

  /** The source-map part of the minifier options. */
  datatype SourceMapOptions = SourceMapOptions(filename: string, url: string, root: string,
                                               includeSources: bool)

  /** The minifier options; `None` is an option left unset. */
  datatype MinifyOptions = MinifyOptions(
    compress: Option<bool>, mangle: Option<bool>, beautify: Option<bool>,
    sourceMap: Option<SourceMapOptions>)

  /** `concatFilesAsync`'s options: outside production, no compression, no
      mangling and beautified output; with source maps, a map named after
      the target, served from `instapack://` with the sources inlined. */
  method ConcatOptions(production: bool, sourceMap: bool, target: string) returns (options: MinifyOptions)
    ensures production ==> options.compress.None? && options.mangle.None? && options.beautify.None?
    ensures !production ==> options.compress == Some(false) && options.mangle == Some(false)
                            && options.beautify == Some(true)
    ensures options.sourceMap.Some? <==> sourceMap
    ensures sourceMap ==> options.sourceMap.value.filename == target
                          && options.sourceMap.value.url == target + ".map"
                          && options.sourceMap.value.root == "instapack://"
                          && options.sourceMap.value.includeSources
  {
    options := MinifyOptions(None, None, None, None);
    if !production {
      options := options.(compress := Some(false));
      options := options.(mangle := Some(false));
      options := options.(beautify := Some(true));
    }
    if sourceMap {
      options := options.(sourceMap := Some(SourceMapOptions(target, target + ".map", "instapack://", true)));
    }
  }

  /** What the minifier returns: an error, or the code and maybe a map. */
  datatype MinifyResult = MinifyResult(error: Option<string>, code: string, map_: Option<string>)

  /** A file write: path and content. */
  datatype Write = Write(path: string, content: string)

  /** The writes of a finished target at `outPath`: the code, then the map
      when the result has a (non-empty) one. A minifier error rejects. */
  function TargetWrites(outPath: string, result: MinifyResult): (r: Result<seq<Write>, string>)
    ensures result.error.Some? <==> r.Err?
    ensures r.Ok? ==> |r.value| > 0 && r.value[0] == Write(outPath, result.code)
    ensures r.Ok? ==> (|r.value| == 2 <==> result.map_.Some? && result.map_.value != "")
    ensures r.Ok? && |r.value| == 2 ==> r.value[1] == Write(outPath + ".map", result.map_.value)
  {
    if result.error.Some? then Err(result.error.value)
    else
      Ok([Write(outPath, result.code)]
         + (if result.map_.Some? && result.map_.value != "" then [Write(outPath + ".map", result.map_.value)] else []))
  }

  /** How a started task ends: its error, if any, is logged and swallowed,
      so no task (and so not `build`) ever rejects. */
  datatype TaskReport = TaskReport(writes: seq<Write>, log: seq<string>)

  function SettleTask(output: string, outcome: Result<seq<Write>, string>): (r: TaskReport)
    ensures outcome.Ok? ==> r == TaskReport(outcome.value, [])
    ensures outcome.Err? ==> r.writes == [] && |r.log| == 2
                             && r.log[0] == "ERROR when concatenating " + output
                             && r.log[1] == outcome.error
  {
    match outcome
    case Ok(writes) => TaskReport(writes, [])
    case Err(e) => TaskReport([], ["ERROR when concatenating " + output, e])
  }
}
