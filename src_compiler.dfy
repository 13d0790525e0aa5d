/** The Browserify-era compiler: the server port switching on watch mode,
    the rewriting of Browserify source-map paths, module concatenation, and
    the concat task whose stream ends when its counter reaches zero. The
    package-restore test is the same as the gulp-era compiler's
    (`BinCompiler.NeedPackageRestore`). */
module SrcCompiler {
  import opened Wrappers
  import opened Strings
  import BinCompiler

  /** The build flags, shared with the caller, which the constructor may
      update in place. */
  class CompilerFlags {
    var minify: bool
    var watch: bool
    var map_: bool
    var serverPort: int

    constructor (minify: bool, watch: bool, map_: bool, serverPort: int)
      ensures this.minify == minify && this.watch == watch && this.map_ == map_
      ensures this.serverPort == serverPort
    {
      this.minify := minify;
      this.watch := watch;
      this.map_ := map_;
      this.serverPort := serverPort;
    }
  }

  class Compiler {
    const input: string
    const flags: CompilerFlags
    /** The port of the build server, when one was started. */
    const server: Option<int>

    /** A non-zero server port starts a server and turns watch mode on in
        the caller's flags; nothing else in them changes. */
    constructor (input: string, flags: CompilerFlags)
      modifies flags
      ensures this.input == input && this.flags == flags
      ensures flags.watch == (old(flags.watch) || flags.serverPort != 0)
      ensures flags.minify == old(flags.minify) && flags.map_ == old(flags.map_)
      ensures flags.serverPort == old(flags.serverPort)
      ensures server.Some? <==> flags.serverPort != 0
      ensures server.Some? ==> server.value == flags.serverPort
    {
      this.input := input;
      this.flags := flags;
      if flags.serverPort != 0 {
        flags.watch := true;
        this.server := Some(flags.serverPort);
      } else {
        this.server := None;
      }
    }
  }

  /** How a Browserify source-map path is rewritten: a dependency path is
      moved up one folder; a path under the input's script folder loses that
      prefix; anything else is kept. The dependency rule is tried first. */
  function FlattenBrowserifySourcePath(input: string, sourcePath: string): (r: string)
  {
    var folder := input + "/js/";
    if StartsWith(sourcePath, "node_modules") then "../" + sourcePath
    else if StartsWith(sourcePath, folder) then sourcePath[|folder|..]
    else sourcePath
  }

  /** Each rule undoes cleanly: a dependency path comes back by dropping
      `../`, a script path by putting the folder back in front, and any
      other path is untouched. */
  lemma FlattenBrowserifySourcePathCases(input: string, sourcePath: string)
    ensures var r := FlattenBrowserifySourcePath(input, sourcePath);
            var folder := input + "/js/";
            && (StartsWith(sourcePath, "node_modules") ==> StartsWith(r, "../") && r[3..] == sourcePath)
            && (!StartsWith(sourcePath, "node_modules") && StartsWith(sourcePath, folder)
                ==> folder + r == sourcePath)
            && (!StartsWith(sourcePath, "node_modules") && !StartsWith(sourcePath, folder)
                ==> r == sourcePath)
  {
    var r := FlattenBrowserifySourcePath(input, sourcePath);
    var folder := input + "/js/";
    if StartsWith(sourcePath, "node_modules") {
      assert r == "../" + sourcePath;
      assert r[..3] == "../";
    } else if StartsWith(sourcePath, folder) {
      assert sourcePath[..|folder|] == folder;
      assert folder + sourcePath[|folder|..] == sourcePath[..|folder|] + sourcePath[|folder|..];
    }
  }

  /** When the input folder is itself called `node_modules`, a path under
      its script folder is treated as a dependency, not stripped. */
  lemma DependencyRuleFirst()
    ensures FlattenBrowserifySourcePath("node_modules", "node_modules/js/app.ts")
            == "../node_modules/js/app.ts"
  {
    assert StartsWith("node_modules/js/app.ts", "node_modules") by {
      assert "node_modules/js/app.ts"[..|"node_modules"|] == "node_modules";
    }
  }

  /** A script path loses exactly its `input/js/` prefix. */
  lemma ScriptPathStripped()
    ensures FlattenBrowserifySourcePath("client", "client/js/app.ts") == "app.ts"
  {
    assert !StartsWith("client/js/app.ts", "node_modules") by {
      assert "client/js/app.ts"[..|"node_modules"|][0] != "node_modules"[0];
    }
    assert StartsWith("client/js/app.ts", "client/js/") by {
      assert "client/js/app.ts"[..|"client/js/"|] == "client/js/";
    }
    assert "client/js/app.ts"[|"client/js/"|..] == "app.ts";
  }

  /** `resolveThenConcatenate`: each module resolved and read in turn, its
      text followed by a newline. */
  method ResolveThenConcatenate(paths: seq<string>, resolve: string -> Result<string, string>,
                                read: string -> Result<string, string>)
    returns (r: Result<string, string>)
    ensures r == BinCompiler.Concatenation(paths, resolve, read)
  {
    var concat := "";
    var i := 0;
    while i < |paths|
      invariant 0 <= i <= |paths|
      invariant BinCompiler.Concatenation(paths[..i], resolve, read) == Ok(concat)
    {
      assert paths[..i + 1][..i] == paths[..i];
      var absolute := resolve(paths[i]);
      if absolute.Err? {
        BinCompiler.ConcatenationAppend(paths[..i + 1], paths[i + 1..], resolve, read);
        assert paths[..i + 1] + paths[i + 1..] == paths;
        return Err(absolute.error);
      }
      var text := read(absolute.value);
      if text.Err? {
        BinCompiler.ConcatenationAppend(paths[..i + 1], paths[i + 1..], resolve, read);
        assert paths[..i + 1] + paths[i + 1..] == paths;
        return Err(text.error);
      }
      concat := concat + text.value + "\n";
      i := i + 1;
    }
    assert paths[..i] == paths;
    r := Ok(concat);
  }

  /** The concat output name: always the target and `.js`, even when the
      target already ends in `.js`. */
  function ConcatOutputName(target: string): (r: string)
    ensures EndsWith(r, ".js") && |r| == |target| + 3 && r[..|target|] == target
  {
    EndsWithAppend(target, ".js");
    target + ".js"
  }

  /** Unlike the other two concat versions, a target already named `.js`
      gets a second suffix. */
  lemma ConcatOutputNameDoublesSuffix()
    ensures ConcatOutputName("vendor.js") == "vendor.js.js"
  {
  }

  /** The number of successful settlements. */
  function Successes(settled: seq<(string, BinCompiler.Settlement)>): (r: nat)
    ensures r <= |settled|
    decreases |settled|
  {
    if settled == [] then 0
    else Successes(settled[..|settled| - 1]) + (if settled[|settled| - 1].1.Concatenated? then 1 else 0)
  }

  /** What the concat task as written pushes while its counter starts at
      `count`: only a success pushes its file and counts down; a rejected
      concatenation is not handled, so it neither pushes nor counts down. */
  function SettledAsWritten(settled: seq<(string, BinCompiler.Settlement)>, count: int): (r: seq<BinCompiler.Item>)
    decreases |settled|
  {
    if settled == [] then []
    else
      var n := |settled| - 1;
      SettledAsWritten(settled[..n], count)
      + (match settled[n].1
         case Concatenated(text) =>
           [BinCompiler.File(ConcatOutputName(settled[n].0), text)]
           + BinCompiler.EndAt(count - Successes(settled[..n]) - 1)
         case Failed(_) => [])
  }

  /** The task as written ends its stream iff the counter reaches zero
      among the successes. */
  lemma {:induction false} SettledAsWrittenEnds(settled: seq<(string, BinCompiler.Settlement)>, count: int)
    ensures multiset(SettledAsWritten(settled, count))[BinCompiler.End]
            == (if 1 <= count <= Successes(settled) then 1 else 0)
    decreases |settled|
  {
    if settled != [] {
      var n := |settled| - 1;
      SettledAsWrittenEnds(settled[..n], count);
    }
  }

  /** One more settled target, as written. */
  lemma SettledAsWrittenSnoc(settled: seq<(string, BinCompiler.Settlement)>,
                             last: (string, BinCompiler.Settlement), count: int)
    ensures Successes(settled + [last]) == Successes(settled) + (if last.1.Concatenated? then 1 else 0)
    ensures SettledAsWritten(settled + [last], count)
            == SettledAsWritten(settled, count)
               + (match last.1
                  case Concatenated(text) =>
                    [BinCompiler.File(ConcatOutputName(last.0), text)]
                    + BinCompiler.EndAt(count - Successes(settled) - 1)
                  case Failed(_) => [])
  {
    assert (settled + [last])[..|settled|] == settled;
  }

  /** The concat task as written, after `registerConcatTask` found a
      non-zero counter: the settling of the concatenations it starts, in
      the order given. */
  method ConcatTaskAsWritten(concatCount: int, settled: seq<(string, BinCompiler.Settlement)>)
    returns (g: BinCompiler.ConcatStream)
    ensures fresh(g)
    ensures g.count == concatCount - Successes(settled)
    ensures g.items == SettledAsWritten(settled, concatCount)
  {
    g := new BinCompiler.ConcatStream(concatCount);
    var k := 0;
    while k < |settled|
      invariant 0 <= k <= |settled|
      invariant g.count == concatCount - Successes(settled[..k])
      invariant g.items == SettledAsWritten(settled[..k], concatCount)
    {
      assert settled[..k + 1] == settled[..k] + [settled[k]];
      SettledAsWrittenSnoc(settled[..k], settled[k], concatCount);
      var (target, settlement) := settled[k];
      match settlement {
        case Concatenated(text) =>
          g.Push(BinCompiler.File(target + ".js", text));
          g.CountDown();
        case Failed(_) =>
      }
      k := k + 1;
    }
    assert settled[..k] == settled;
  }

  /** As written, once any target fails the stream never ends, even after
      every target has settled. */
  lemma {:induction false} FailureLeavesStreamOpen(settled: seq<(string, BinCompiler.Settlement)>)
    requires exists i :: 0 <= i < |settled| && settled[i].1.Failed?
    ensures multiset(SettledAsWritten(settled, |settled|))[BinCompiler.End] == 0
  {
    SettledAsWrittenEnds(settled, |settled|);
    var i :| 0 <= i < |settled| && settled[i].1.Failed?;
    SuccessesBelowLength(settled, i);
  }

  lemma {:induction false} SuccessesBelowLength(settled: seq<(string, BinCompiler.Settlement)>, i: nat)
    requires i < |settled| && settled[i].1.Failed?
    ensures Successes(settled) < |settled|
    decreases |settled|
  {
    var n := |settled| - 1;
    if i < n {
      assert settled[..n][i] == settled[i];
      SuccessesBelowLength(settled[..n], i);
    }
  }

  /** The smallest case: one target whose module cannot be resolved. The
      task pushes nothing and its stream is never ended. */
  lemma OneFailedTargetNeverEnds()
    ensures SettledAsWritten([("vendor", BinCompiler.Failed("Cannot find module 'jquery'"))], 1) == []
  {
    var s := [("vendor", BinCompiler.Failed("Cannot find module 'jquery'"))];
    assert s[..0] == [];
  }

  /** The file a settled target pushes in the Browserify-era compiler: its
      output name and text on success, nothing on failure. */
  function Written(target: string, settlement: BinCompiler.Settlement): (r: seq<BinCompiler.Item>)
    ensures settlement.Failed? <==> r == []
    ensures forall i :: 0 <= i < |r| ==> r[i].File? && r[i].path == ConcatOutputName(target)
  {
    match settlement
    case Concatenated(text) => [BinCompiler.File(ConcatOutputName(target), text)]
    case Failed(_) => []
  }

  /** What the corrected task pushes: as written, but a failure counts down
      too, as the gulp-era compiler does. */
  function SettledCorrected(settled: seq<(string, BinCompiler.Settlement)>, count: int): (r: seq<BinCompiler.Item>)
    decreases |settled|
  {
    if settled == [] then []
    else
      var n := |settled| - 1;
      SettledCorrected(settled[..n], count)
      + Written(settled[n].0, settled[n].1)
      + BinCompiler.EndAt(count - n - 1)
  }

  lemma {:induction false} SettledCorrectedEnds(settled: seq<(string, BinCompiler.Settlement)>, count: int)
    ensures var r := SettledCorrected(settled, count);
            multiset(r)[BinCompiler.End] == (if 1 <= count <= |settled| then 1 else 0)
            && (count == |settled| > 0 ==> r[|r| - 1] == BinCompiler.End)
    decreases |settled|
  {
    if settled != [] {
      var n := |settled| - 1;
      SettledCorrectedEnds(settled[..n], count);
      var p := Written(settled[n].0, settled[n].1);
      assert multiset(p)[BinCompiler.End] == 0 by {
        if p != [] {
          assert p == [p[0]];
        }
      }
    }
  }

  lemma SettledCorrectedSnoc(settled: seq<(string, BinCompiler.Settlement)>,
                             last: (string, BinCompiler.Settlement), count: int)
    ensures SettledCorrected(settled + [last], count)
            == SettledCorrected(settled, count)
               + Written(last.0, last.1)
               + BinCompiler.EndAt(count - |settled| - 1)
  {
    assert (settled + [last])[..|settled|] == settled;
  }

  /** The corrected concat task: every settled target counts down once. */
  method ConcatTask(concatCount: int, settled: seq<(string, BinCompiler.Settlement)>)
    returns (g: BinCompiler.ConcatStream)
    ensures fresh(g)
    ensures g.count == concatCount - |settled|
    ensures g.items == SettledCorrected(settled, concatCount)
  {
    g := new BinCompiler.ConcatStream(concatCount);
    var k := 0;
    while k < |settled|
      invariant 0 <= k <= |settled|
      invariant g.count == concatCount - k
      invariant g.items == SettledCorrected(settled[..k], concatCount)
    {
      ghost var done := g.items;
      assert settled[..k + 1] == settled[..k] + [settled[k]];
      SettledCorrectedSnoc(settled[..k], settled[k], concatCount);
      var (target, settlement) := settled[k];
      ghost var file := Written(target, settlement);
      match settlement {
        case Concatenated(text) =>
          g.Push(BinCompiler.File(target + ".js", text));
        case Failed(_) =>
      }
      assert g.items == done + file;
      g.CountDown();
      assert g.items == done + file + BinCompiler.EndAt(concatCount - k - 1);
      k := k + 1;
    }
    assert settled[..k] == settled;
  }

  /** Corrected, the stream ends exactly once, after the last target, once
      every target has settled, whether or not some failed. */
  lemma {:induction false} CorrectedStreamEndsOnce(settled: seq<(string, BinCompiler.Settlement)>)
    requires |settled| > 0
    ensures var r := SettledCorrected(settled, |settled|);
            multiset(r)[BinCompiler.End] == 1 && r[|r| - 1] == BinCompiler.End
  {
    SettledCorrectedEnds(settled, |settled|);
  }
}
