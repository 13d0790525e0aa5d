/** The gulp-era compiler: webpack loader chains for the TypeScript and
    template rules, the devtool and watch parts of the webpack
    configuration, the concat stream that ends once every target has
    reported, the file concatenation behind it, and the package-restore
    test. Module resolution, file reads, the processor count and file
    existence are inputs. */
module BinCompiler {
  import opened Wrappers
  import opened Strings
  import ConcatBuildTool

  /** The build flags this compiler reads. */
  datatype CompilerFlags = CompilerFlags(production: bool, watch: bool, sourceMap: bool, parallel: bool)

  /** A webpack loader entry with the options the compiler sets. */
  datatype Loader =
    | CacheLoader(cacheDirectory: string)
    | ThreadLoader(workers: int)
    | TsLoader(sourceMap: bool, transpileOnly: bool, happyPackMode: bool)
    | TemplateLoader(mode: string)

  /** A webpack rule: the file pattern and its loaders, applied last first. */
  datatype Rule = Rule(test: string, use: seq<Loader>)

  /** The loaders put in front of a rule: none unless the build is parallel;
      then the cache loader (only for a cached rule) followed by a thread
      loader with one worker per processor but one. */
  function ParallelLoaders(parallel: bool, cached: bool, cacheFolder: string, cpuCount: nat)
    : (r: seq<Loader>)
    ensures !parallel ==> r == []
    ensures parallel ==> |r| > 0 && r[|r| - 1] == ThreadLoader(cpuCount - 1)
    ensures |r| == (if !parallel then 0 else if cached then 2 else 1)
    ensures forall i :: 0 <= i < |r| && r[i].CacheLoader? ==> parallel && cached && i == 0
    ensures parallel && cached ==> r[0] == CacheLoader(cacheFolder)
  {
    if !parallel then []
    else (if cached then [CacheLoader(cacheFolder)] else []) + [ThreadLoader(cpuCount - 1)]
  }

  /** The webpack settings of a watched build. */
  datatype WatchOptions = WatchOptions(ignored: string, aggregateTimeout: nat)

  /** The parts of the webpack configuration that depend on the flags. */
  datatype WebpackConfiguration = WebpackConfiguration(
    entry: string, filename: string, path: string, rules: seq<Rule>,
    devtool: Option<string>, watch: bool, watchOptions: Option<WatchOptions>)

  /** The compiler: its settings and flags are fixed at construction. */
  class Compiler {
    const flags: CompilerFlags
    const jsEntry: string
    const jsOut: string
    const outputJsFolder: string
    const cacheFolder: string
    const template: string
    /** `os.cpus().length`. */
    const cpuCount: nat

    constructor (flags: CompilerFlags, jsEntry: string, jsOut: string, outputJsFolder: string,
                 cacheFolder: string, template: string, cpuCount: nat)
      ensures this.flags == flags && this.jsEntry == jsEntry && this.jsOut == jsOut
      ensures this.outputJsFolder == outputJsFolder && this.cacheFolder == cacheFolder
      ensures this.template == template && this.cpuCount == cpuCount
    {
      this.flags := flags;
      this.jsEntry := jsEntry;
      this.jsOut := jsOut;
      this.outputJsFolder := outputJsFolder;
      this.cacheFolder := cacheFolder;
      this.template := template;
      this.cpuCount := cpuCount;
    }

    /** `getParallelLoaders`: pushes the cache and thread loaders as the
        flags ask. */
    method GetParallelLoaders(cached: bool) returns (loaders: seq<Loader>)
      ensures loaders == ParallelLoaders(flags.parallel, cached, cacheFolder, cpuCount)
    {
      loaders := [];
      if flags.parallel {
        if cached {
          loaders := loaders + [CacheLoader(cacheFolder)];
        }
        loaders := loaders + [ThreadLoader(cpuCount - 1)];
      }
    }

    /** `getTypeScriptWebpackRules`: the cached parallel loaders, then
        ts-loader, which only transpiles (and leaves checking to a forked
        checker) in a parallel build. */
    method GetTypeScriptWebpackRules() returns (rule: Rule)
      ensures rule.test == "\\.tsx?$"
      ensures |rule.use| > 0
      ensures rule.use[..|rule.use| - 1] == ParallelLoaders(flags.parallel, true, cacheFolder, cpuCount)
      ensures rule.use[|rule.use| - 1] == TsLoader(flags.sourceMap, flags.parallel, flags.parallel)
    {
      var loaders := GetParallelLoaders(true);
      loaders := loaders + [TsLoader(flags.sourceMap, flags.parallel, flags.parallel)];
      rule := Rule("\\.tsx?$", loaders);
    }

    /** `getTemplatesWebpackRules`: the uncached parallel loaders, then the
        template loader in the project's template mode. */
    method GetTemplatesWebpackRules() returns (rule: Rule)
      ensures rule.test == "\\.html?$"
      ensures |rule.use| > 0
      ensures rule.use[..|rule.use| - 1] == ParallelLoaders(flags.parallel, false, cacheFolder, cpuCount)
      ensures rule.use[|rule.use| - 1] == TemplateLoader(template)
    {
      var loaders := GetParallelLoaders(false);
      loaders := loaders + [TemplateLoader(template)];
      rule := Rule("\\.html?$", loaders);
    }

    /** `webpackConfiguration`: a devtool only with source maps (a full map
        in production, an eval map otherwise), and watch settings only in
        watch mode. */
    method GetWebpackConfiguration() returns (config: WebpackConfiguration)
      ensures config.entry == jsEntry && config.filename == jsOut && config.path == outputJsFolder
      ensures |config.rules| == 2
      ensures config.devtool.Some? <==> flags.sourceMap
      ensures flags.sourceMap ==>
                config.devtool.value == (if flags.production then "source-map" else "eval-source-map")
      ensures config.watch <==> flags.watch
      ensures config.watchOptions.Some? <==> flags.watch
      ensures flags.watch ==> config.watchOptions.value == WatchOptions("node_modules", 300)
    {
      var ts := GetTypeScriptWebpackRules();
      var templates := GetTemplatesWebpackRules();
      config := WebpackConfiguration(jsEntry, jsOut, outputJsFolder, [ts, templates], None, false, None);
      if flags.sourceMap {
        config := config.(devtool := Some(if flags.production then "source-map" else "eval-source-map"));
      }
      if flags.watch {
        config := config.(watch := true);
        config := config.(watchOptions := Some(WatchOptions("node_modules", 300)));
      }
    }
  }

  /** Only the TypeScript rule is cached, and in both rules the compiling
      loader runs first, after the parallel loaders. */
  lemma OnlyTypeScriptIsCached(parallel: bool, cacheFolder: string, cpuCount: nat)
    ensures parallel ==> ParallelLoaders(parallel, true, cacheFolder, cpuCount)[0] == CacheLoader(cacheFolder)
    ensures forall l :: l in ParallelLoaders(parallel, false, cacheFolder, cpuCount) ==> !l.CacheLoader?
    ensures ParallelLoaders(parallel, true, cacheFolder, cpuCount)
            == (if parallel then [CacheLoader(cacheFolder)] else [])
               + ParallelLoaders(parallel, false, cacheFolder, cpuCount)
  {
  }

  /** `needPackageRestore`: a manifest without an installed package
      folder. */
  function NeedPackageRestore(hasPackageJson: bool, hasNodeModules: bool): (r: bool)
    ensures r ==> hasPackageJson
    ensures hasNodeModules ==> !r
    ensures hasPackageJson && !hasNodeModules ==> r
  {
    hasPackageJson && !hasNodeModules
  }

  /** What `resolveThenConcat` settles with: the resolved texts of the
      modules, each followed by a newline, in list order; the first
      resolution or read failure rejects. */
  function Concatenation(paths: seq<string>, resolve: string -> Result<string, string>,
                         read: string -> Result<string, string>): (r: Result<string, string>)
    decreases |paths|
  {
    if paths == [] then Ok("")
    else ConcatenationStep(Concatenation(paths[..|paths| - 1], resolve, read), paths[|paths| - 1], resolve, read)
  }

  /** One more module after what is already concatenated: a failure so far
      stays; otherwise the module is resolved and read, and its text and a
      newline are appended. */
  function ConcatenationStep(sofar: Result<string, string>, path: string,
                             resolve: string -> Result<string, string>,
                             read: string -> Result<string, string>): Result<string, string>
  {
    match sofar
    case Err(e) => Err(e)
    case Ok(prefix) =>
      match resolve(path)
      case Err(e) => Err(e)
      case Ok(absolute) =>
        match read(absolute)
        case Err(e) => Err(e)
        case Ok(text) => Ok(prefix + text + "\n")
  }

  /** One module: its text and a newline. */
  lemma ConcatenationSingle(path: string, resolve: string -> Result<string, string>,
                            read: string -> Result<string, string>)
    requires resolve(path).Ok? && read(resolve(path).value).Ok?
    ensures Concatenation([path], resolve, read) == Ok(read(resolve(path).value).value + "\n")
  {
    var text := read(resolve(path).value).value;
    assert [path][..0] == [];
    assert Concatenation([], resolve, read) == Ok("");
    assert "" + text + "\n" == text + "\n";
  }

  /** Concatenation distributes over list append; a failure in the first
      part is the result of the whole. */
  lemma {:induction false} ConcatenationAppend(a: seq<string>, b: seq<string>,
                                               resolve: string -> Result<string, string>,
                                               read: string -> Result<string, string>)
    ensures Concatenation(a, resolve, read).Err? ==>
              Concatenation(a + b, resolve, read) == Concatenation(a, resolve, read)
    ensures Concatenation(a, resolve, read).Ok? && Concatenation(b, resolve, read).Ok? ==>
              Concatenation(a + b, resolve, read)
              == Ok(Concatenation(a, resolve, read).value + Concatenation(b, resolve, read).value)
    ensures Concatenation(b, resolve, read).Err? ==> Concatenation(a + b, resolve, read).Err?
    decreases |b|
  {
    if b == [] {
      assert a + b == a;
      if Concatenation(a, resolve, read).Ok? {
        assert Concatenation(a, resolve, read).value + "" == Concatenation(a, resolve, read).value;
      }
    } else {
      var n := |b| - 1;
      ConcatenationAppend(a, b[..n], resolve, read);
      assert Concatenation(a + b, resolve, read) == ConcatenationStep(Concatenation(a + b[..n], resolve, read), b[n], resolve, read) by {
        assert (a + b)[..|a + b| - 1] == a + b[..n];
        assert (a + b)[|a + b| - 1] == b[n];
      }
      if Concatenation(a, resolve, read).Ok? && Concatenation(b, resolve, read).Ok? {
        var x := Concatenation(a, resolve, read).value;
        var y := Concatenation(b[..n], resolve, read).value;
        var text := read(resolve(b[n]).value).value;
        assert (x + y) + text + "\n" == x + (y + text + "\n");
      }
    }
  }

  /** `resolveThenConcat`: resolves and reads each module in turn, appending
      its text and a newline. */
  method ResolveThenConcat(paths: seq<string>, resolve: string -> Result<string, string>,
                           read: string -> Result<string, string>)
    returns (r: Result<string, string>)
    ensures r == Concatenation(paths, resolve, read)
  {
    var concat := "";
    var i := 0;
    while i < |paths|
      invariant 0 <= i <= |paths|
      invariant Concatenation(paths[..i], resolve, read) == Ok(concat)
    {
      assert paths[..i + 1][..i] == paths[..i];
      var absolute := resolve(paths[i]);
      if absolute.Err? {
        ConcatenationAppend(paths[..i + 1], paths[i + 1..], resolve, read);
        assert paths[..i + 1] + paths[i + 1..] == paths;
        return Err(absolute.error);
      }
      var text := read(absolute.value);
      if text.Err? {
        ConcatenationAppend(paths[..i + 1], paths[i + 1..], resolve, read);
        assert paths[..i + 1] + paths[i + 1..] == paths;
        return Err(text.error);
      }
      concat := concat + text.value + "\n";
      i := i + 1;
    }
    assert paths[..i] == paths;
    r := Ok(concat);
  }

  /** What the concat stream carries: a file, or the end of the stream. */
  datatype Item = File(path: string, contents: string) | End

  /** How a started target's promise settles. */
  datatype Settlement = Concatenated(text: string) | Failed(error: string)

  /** The stream behind the concat task and the counter its `countDown`
      closes over. */
  class ConcatStream {
    var count: int
    var items: seq<Item>

    constructor (concatCount: int)
      ensures count == concatCount && items == []
    {
      count := concatCount;
      items := [];
    }

    /** `countDown`: one target has reported; the stream ends when the
        counter reaches exactly zero. */
    method CountDown()
      modifies this
      ensures count == old(count) - 1
      ensures items == old(items) + EndAt(count)
    {
      count := count - 1;
      if count == 0 {
        items := items + [End];
      }
    }

    method Push(file: Item)
      modifies this
      ensures count == old(count)
      ensures items == old(items) + [file]
    {
      items := items + [file];
    }
  }

  /** The end of the stream, pushed when the counter is at zero. */
  function EndAt(count: int): (r: seq<Item>)
    ensures |r| <= 1
  {
    if count == 0 then [End] else []
  }

  /** The number of targets skipped because their list is empty. */
  function Skipped(targets: seq<(string, ConcatBuildTool.ModuleList)>): (r: nat)
    ensures r <= |targets|
    decreases |targets|
  {
    if targets == [] then 0
    else Skipped(targets[..|targets| - 1])
         + (if ConcatBuildTool.NormaliseModules(targets[|targets| - 1].1).None? then 1 else 0)
  }

  /** The names of the targets that start a concatenation, in order. */
  function StartedNames(targets: seq<(string, ConcatBuildTool.ModuleList)>): (r: seq<string>)
    ensures |r| == |targets| - Skipped(targets)
    decreases |targets|
  {
    if targets == [] then []
    else
      var n := |targets| - 1;
      StartedNames(targets[..n])
      + (if ConcatBuildTool.NormaliseModules(targets[n].1).None? then [] else [targets[n].0])
  }

  /** The target names of the settlements, in settling order. */
  function SettledNames(settled: seq<(string, Settlement)>): (r: seq<string>)
    ensures |r| == |settled|
    ensures forall i :: 0 <= i < |settled| ==> r[i] == settled[i].0
  {
    seq(|settled|, i requires 0 <= i < |settled| => settled[i].0)
  }

  /** Every started target settles exactly once: the settled names are the
      started names, in some order. */
  predicate SettlesEachStarted(targets: seq<(string, ConcatBuildTool.ModuleList)>,
                               settled: seq<(string, Settlement)>) {
    multiset(SettledNames(settled)) == multiset(StartedNames(targets))
  }

  /** What the synchronous pass pushes: the end of the stream if the
      skipped targets alone bring the counter to zero. */
  function SkippedItems(targets: seq<(string, ConcatBuildTool.ModuleList)>, count: int): seq<Item>
    decreases |targets|
  {
    if targets == [] then []
    else
      var n := |targets| - 1;
      SkippedItems(targets[..n], count)
      + (if ConcatBuildTool.NormaliseModules(targets[n].1).None? then EndAt(count - Skipped(targets)) else [])
  }

  /** The synchronous pass ends the stream once if the skipped targets
      bring the counter to zero, never otherwise. */
  lemma {:induction false} SkippedItemsEnds(targets: seq<(string, ConcatBuildTool.ModuleList)>, count: int)
    ensures multiset(SkippedItems(targets, count))[End] == (if 1 <= count <= Skipped(targets) then 1 else 0)
    decreases |targets|
  {
    if targets != [] {
      var n := |targets| - 1;
      SkippedItemsEnds(targets[..n], count);
      var pre := SkippedItems(targets[..n], count);
      var add := if ConcatBuildTool.NormaliseModules(targets[n].1).None? then EndAt(count - Skipped(targets)) else [];
      assert SkippedItems(targets, count) == pre + add;
      assert multiset(pre + add) == multiset(pre) + multiset(add);
    }
  }

  /** The file a settled target pushes: its output name and text on
      success, nothing on failure. */
  function Pushed(target: string, settlement: Settlement): (r: seq<Item>)
    ensures settlement.Failed? <==> r == []
    ensures settlement.Concatenated? ==> r == [File(ConcatBuildTool.JsOutputName(target), settlement.text)]
    ensures forall i :: 0 <= i < |r| ==> r[i].File? && EndsWith(r[i].path, ".js")
  {
    match settlement
    case Concatenated(text) => [File(ConcatBuildTool.JsOutputName(target), text)]
    case Failed(_) => []
  }

  /** What the settled targets push, in settling order, while the counter
      starts at `count`: each success its file, then the end of the stream
      when the counter reaches zero. */
  function SettledItems(settled: seq<(string, Settlement)>, count: int): (r: seq<Item>)
    decreases |settled|
  {
    if settled == [] then []
    else
      var n := |settled| - 1;
      SettledItems(settled[..n], count) + Pushed(settled[n].0, settled[n].1) + EndAt(count - n - 1)
  }

  /** One more settled target appends what it pushes. */
  lemma SettledItemsSnoc(settled: seq<(string, Settlement)>, last: (string, Settlement), count: int)
    ensures SettledItems(settled + [last], count)
            == SettledItems(settled, count) + Pushed(last.0, last.1) + EndAt(count - |settled| - 1)
  {
    assert (settled + [last])[..|settled|] == settled;
  }

  /** The settled targets end the stream once if the counter reaches zero
      among them, never otherwise; and reaching zero at the last one puts
      the end last. */
  lemma {:induction false} SettledItemsEnds(settled: seq<(string, Settlement)>, count: int)
    ensures var r := SettledItems(settled, count);
            multiset(r)[End] == (if 1 <= count <= |settled| then 1 else 0)
            && (count == |settled| > 0 ==> r[|r| - 1] == End)
    decreases |settled|
  {
    if settled != [] {
      var n := |settled| - 1;
      SettledItemsEnds(settled[..n], count);
      var p := Pushed(settled[n].0, settled[n].1);
      assert multiset(p)[End] == 0 by {
        if p != [] {
          assert p == [p[0]];
        }
      }
    }
  }

  /** `streamConcatVinyl` and the settling of the promises it starts.
      Targets are visited in order: an empty one counts down at once; the
      others start a concatenation. `settled` lists the started targets in
      the order their concatenations settle, with how each settled; each
      pushes its file on success, logs on failure, and counts down either
      way. Every started target settles exactly once. */
  method StreamConcatVinyl(concatCount: int, targets: seq<(string, ConcatBuildTool.ModuleList)>,
                           settled: seq<(string, Settlement)>)
    returns (g: ConcatStream)
    requires SettlesEachStarted(targets, settled)
    ensures fresh(g)
    ensures g.count == concatCount - Skipped(targets) - |settled|
    ensures g.items == SkippedItems(targets, concatCount)
                       + SettledItems(settled, concatCount - Skipped(targets))
  {
    g := new ConcatStream(concatCount);
    CountDownSkipped(g, targets);
    ghost var skipped := g.items;
    assert skipped == SkippedItems(targets, concatCount);
    SettleAll(g, settled);
  }

  /** When every started target settles once and the counter starts at the
      number of targets, the stream ends exactly once, last. */
  lemma EveryStartedTargetSettles(targets: seq<(string, ConcatBuildTool.ModuleList)>,
                                  settled: seq<(string, Settlement)>)
    requires |targets| > 0
    requires SettlesEachStarted(targets, settled)
    ensures var items := SkippedItems(targets, |targets|) + SettledItems(settled, |targets| - Skipped(targets));
            multiset(items)[End] == 1 && items[|items| - 1] == End
  {
    SettledCount(targets, settled);
    StreamEndsOnceAfterLastTarget(targets, settled);
  }

  /** One settlement per started target. */
  lemma SettledCount(targets: seq<(string, ConcatBuildTool.ModuleList)>, settled: seq<(string, Settlement)>)
    requires SettlesEachStarted(targets, settled)
    ensures |settled| == |targets| - Skipped(targets)
  {
    var a := SettledNames(settled);
    var b := StartedNames(targets);
    assert |multiset(a)| == |a|;
    assert |multiset(b)| == |b|;
  }

  /** One more target in the synchronous pass: a skipped one counts once
      and may end the stream; any other adds nothing. */
  lemma SkippedItemsStep(items0: seq<Item>, targets: seq<(string, ConcatBuildTool.ModuleList)>, i: nat, count0: int)
    requires i < |targets|
    ensures var skip := ConcatBuildTool.NormaliseModules(targets[i].1).None?;
            && Skipped(targets[..i + 1]) == Skipped(targets[..i]) + (if skip then 1 else 0)
            && items0 + SkippedItems(targets[..i + 1], count0)
               == items0 + SkippedItems(targets[..i], count0)
                  + (if skip then EndAt(count0 - Skipped(targets[..i + 1])) else [])
  {
    assert targets[..i + 1][..i] == targets[..i];
  }

  /** The synchronous pass of `streamConcatVinyl`: each skipped target
      counts down at once. */
  method CountDownSkipped(g: ConcatStream, targets: seq<(string, ConcatBuildTool.ModuleList)>)
    modifies g
    ensures g.count == old(g.count) - Skipped(targets)
    ensures g.items == old(g.items) + SkippedItems(targets, old(g.count))
  {
    ghost var count0 := g.count;
    ghost var items0 := g.items;
    var i := 0;
    while i < |targets|
      invariant 0 <= i <= |targets|
      invariant g.count == count0 - Skipped(targets[..i])
      invariant g.items == items0 + SkippedItems(targets[..i], count0)
    {
      SkippedItemsStep(items0, targets, i, count0);
      ghost var before := g.items;
      if ConcatBuildTool.NormaliseModules(targets[i].1).None? {
        g.CountDown();
        assert g.items == before + EndAt(count0 - Skipped(targets[..i + 1]));
      } else {
        assert g.items == before + [];
      }
      i := i + 1;
    }
    assert targets[..i] == targets;
  }

  /** The stream after `k + 1` settlements is the stream after `k` with
      what the next settlement pushes appended. */
  lemma SettledItemsStep(items0: seq<Item>, settled: seq<(string, Settlement)>, k: nat, count0: int)
    requires k < |settled|
    ensures items0 + SettledItems(settled[..k + 1], count0)
            == items0 + SettledItems(settled[..k], count0) + Pushed(settled[k].0, settled[k].1)
               + EndAt(count0 - k - 1)
  {
    assert settled[..k + 1] == settled[..k] + [settled[k]];
    SettledItemsSnoc(settled[..k], settled[k], count0);
  }

  /** The settling of the started concatenations, in order. */
  method SettleAll(g: ConcatStream, settled: seq<(string, Settlement)>)
    modifies g
    ensures g.count == old(g.count) - |settled|
    ensures g.items == old(g.items) + SettledItems(settled, old(g.count))
  {
    ghost var count0 := g.count;
    ghost var items0 := g.items;
    var k := 0;
    while k < |settled|
      invariant 0 <= k <= |settled|
      invariant g.count == count0 - k
      invariant g.items == items0 + SettledItems(settled[..k], count0)
    {
      SettledItemsStep(items0, settled, k, count0);
      Settle(g, settled[k].0, settled[k].1);
      k := k + 1;
    }
    assert settled[..k] == settled;
  }

  /** One concatenation settles: a success pushes its file under the
      target's name with `.js` appended unless present, a failure is
      logged, and either way the counter goes down. */
  method Settle(g: ConcatStream, target: string, settlement: Settlement)
    modifies g
    ensures g.count == old(g.count) - 1
    ensures g.items == old(g.items) + Pushed(target, settlement) + EndAt(g.count)
  {
    match settlement {
      case Concatenated(text) =>
        var o := target;
        if !EndsWith(o, ".js") {
          o := o + ".js";
        }
        g.Push(File(o, text));
      case Failed(_) =>
    }
    g.CountDown();
  }

  /** The stream ends exactly once, and last, when the counter starts at
      the number of targets and every started target has settled. */
  lemma {:induction false} StreamEndsOnceAfterLastTarget(targets: seq<(string, ConcatBuildTool.ModuleList)>,
                                                         settled: seq<(string, Settlement)>)
    requires |targets| > 0 && |settled| == |targets| - Skipped(targets)
    ensures multiset(SkippedItems(targets, |targets|) + SettledItems(settled, |settled|))[End] == 1
    ensures var items := SkippedItems(targets, |targets|) + SettledItems(settled, |settled|);
            items[|items| - 1] == End
  {
    var pre := SkippedItems(targets, |targets|);
    var post := SettledItems(settled, |settled|);
    SkippedItemsEnds(targets, |targets|);
    SettledItemsEnds(settled, |settled|);
    assert multiset(pre + post) == multiset(pre) + multiset(post);
    if |settled| == 0 {
      SkippedLast(targets, |targets|);
      assert post == [];
      assert multiset(pre)[End] == 1;
      assert pre + post == pre;
    } else {
      assert Skipped(targets) < |targets|;
      assert multiset(pre)[End] == 0;
      assert multiset(post)[End] == 1;
      assert (pre + post)[|pre + post| - 1] == post[|post| - 1];
    }
  }

  /** Until every started target has settled, the stream has not ended. */
  lemma {:induction false} StreamOpenUntilLastTarget(targets: seq<(string, ConcatBuildTool.ModuleList)>,
                                  settled: seq<(string, Settlement)>)
    requires |settled| < |targets| - Skipped(targets)
    ensures multiset(SkippedItems(targets, |targets|)
                     + SettledItems(settled, |targets| - Skipped(targets)))[End] == 0
  {
    var count := |targets| - Skipped(targets);
    var pre := SkippedItems(targets, |targets|);
    var post := SettledItems(settled, count);
    SkippedItemsEnds(targets, |targets|);
    SettledItemsEnds(settled, count);
    assert !(1 <= count <= |settled|);
    assert Skipped(targets) < |targets|;
    assert multiset(pre)[End] == 0;
    assert multiset(post)[End] == 0;
    assert multiset(pre + post) == multiset(pre) + multiset(post);
    assert multiset(pre + post)[End] == 0;
  }

  /** When the skipped targets alone bring the counter from the number of
      targets to zero, every target was skipped and the end is the last
      thing pushed. */
  lemma {:induction false} SkippedLast(targets: seq<(string, ConcatBuildTool.ModuleList)>, count: int)
    requires Skipped(targets) == |targets| == count > 0
    ensures var r := SkippedItems(targets, count); |r| > 0 && r[|r| - 1] == End
  {
    var n := |targets| - 1;
    assert Skipped(targets[..n]) <= n;
    assert ConcatBuildTool.NormaliseModules(targets[n].1).None?;
  }

  /** `registerConcatTask` and a run of the task it registers: with a
      counter of zero the task does nothing and no stream is made. */
  method RunConcatTask(concatCount: int, targets: seq<(string, ConcatBuildTool.ModuleList)>,
                       settled: seq<(string, Settlement)>)
    returns (items: seq<Item>)
    requires SettlesEachStarted(targets, settled)
    ensures concatCount == 0 ==> items == []
    ensures concatCount != 0 ==>
              items == SkippedItems(targets, concatCount) + SettledItems(settled, concatCount - Skipped(targets))
  {
    if concatCount == 0 {
      return [];
    }
    var g := StreamConcatVinyl(concatCount, targets, settled);
    items := g.items;
  }
}
