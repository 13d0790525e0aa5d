/** The incremental type-check layer: the compiler host that reads through a
    read-once raw-file cache and answers every source request from the
    in-memory source store, the type-check pass that collects rendered
    diagnostics, and the watch loop whose add/change/unlink policy arms a
    single trailing-edge debounce timer. The TypeScript compiler is opaque:
    the program's source files, their diagnostics and the positions of those
    diagnostics are inputs. */
module TypeScriptCheckerTool {
  import opened Wrappers
  import opened Strings

  // ---------------------------------------------------------------------------
  // The source store (its implementation is not part of this model; this is
  // the behaviour its call sites rely on)
  // ---------------------------------------------------------------------------

  /** What the store keeps per tracked path. */
  datatype SourceRecord = SourceRecord(text: string, version: nat)

  /** `addOrUpdateSourceAsync` on a store holding `sources`, with `text` the
      file's current content: reports whether anything changed and gives the
      new store contents. */
  function UpdateSource(sources: map<string, SourceRecord>, path: string, text: string)
    : (r: (bool, map<string, SourceRecord>))
    ensures r.0 <==> (path !in sources || sources[path].text != text)
    ensures path in r.1 && r.1[path].text == text
    ensures r.1.Keys == sources.Keys + {path}
    ensures forall p :: p in sources && p != path ==> r.1[p] == sources[p]
    ensures !r.0 ==> r.1 == sources
    ensures r.0 && path in sources ==> r.1[path].version == sources[path].version + 1
  {
    if path in sources && sources[path].text == text then (false, sources)
    else
      var version := if path in sources then sources[path].version + 1 else 1;
      (true, sources[path := SourceRecord(text, version)])
  }

  /** `tryRemoveSource`: whether a tracked path was removed, and what is left. */
  function RemoveSource(sources: map<string, SourceRecord>, path: string)
    : (r: (bool, map<string, SourceRecord>))
    ensures r.0 <==> path in sources
    ensures r.1.Keys == sources.Keys - {path}
    ensures forall p :: p in r.1 ==> r.1[p] == sources[p]
  {
    (path in sources, map p | p in sources && p != path :: sources[p])
  }

  /** `getRealFilePath`: a virtual path maps back to its real file; any other
      path is already real. */
  function RealFilePath(realPaths: map<string, string>, path: string): (r: string)
    ensures path !in realPaths ==> r == path
  {
    if path in realPaths then realPaths[path] else path
  }

  /** Touching a file without changing its bytes is not a change: an update
      with the text the store already has reports no change and leaves the
      store as it was, even right after the file was added. */
  lemma TouchIsNoChange(sources: map<string, SourceRecord>, path: string, text: string)
    ensures var (_, s1) := UpdateSource(sources, path, text);
            UpdateSource(s1, path, text) == (false, s1)
  {
  }

  class VirtualSourceStore {
    var sources: map<string, SourceRecord>
    var realPaths: map<string, string>
    /** The program roots, in inclusion order, each once. */
    var entryFilePaths: seq<string>

    ghost predicate Valid()
      reads this
    {
      forall i, j :: 0 <= i < j < |entryFilePaths| ==> entryFilePaths[i] != entryFilePaths[j]
    }

    constructor ()
      ensures Valid()
      ensures sources == map[] && realPaths == map[] && entryFilePaths == []
    {
      sources := map[];
      realPaths := map[];
      entryFilePaths := [];
    }

    /** `includeFile`: registers a program root; idempotent. */
    method IncludeFile(path: string)
      requires Valid()
      modifies this`entryFilePaths
      ensures Valid()
      ensures entryFilePaths == if path in old(entryFilePaths) then old(entryFilePaths)
                                else old(entryFilePaths) + [path]
    {
      if path !in entryFilePaths {
        entryFilePaths := entryFilePaths + [path];
      }
    }

    /** `includeFiles`: registers each path in turn. */
    method IncludeFiles(paths: seq<string>)
      requires Valid()
      modifies this`entryFilePaths
      ensures Valid()
      ensures forall p :: p in entryFilePaths <==> p in old(entryFilePaths) || p in paths
      ensures |old(entryFilePaths)| <= |entryFilePaths|
      ensures entryFilePaths[..|old(entryFilePaths)|] == old(entryFilePaths)
    {
      var i := 0;
      while i < |paths|
        invariant 0 <= i <= |paths|
        invariant Valid()
        invariant forall p :: p in entryFilePaths <==> p in old(entryFilePaths) || p in paths[..i]
        invariant |old(entryFilePaths)| <= |entryFilePaths|
        invariant entryFilePaths[..|old(entryFilePaths)|] == old(entryFilePaths)
      {
        IncludeFile(paths[i]);
        assert paths[..i + 1] == paths[..i] + [paths[i]];
        i := i + 1;
      }
      assert paths[..i] == paths;
    }

    method AddOrUpdateSource(path: string, text: string) returns (changed: bool)
      modifies this`sources
      ensures (changed, sources) == UpdateSource(old(sources), path, text)
    {
      changed, sources := UpdateSource(sources, path, text).0, UpdateSource(sources, path, text).1;
    }

    method TryRemoveSource(path: string) returns (removed: bool)
      modifies this`sources
      ensures (removed, sources) == RemoveSource(old(sources), path)
    {
      removed, sources := RemoveSource(sources, path).0, RemoveSource(sources, path).1;
    }

    function GetSource(path: string): (r: Option<SourceRecord>)
      reads this
      ensures r.Some? <==> path in sources
      ensures r.Some? ==> r.value == sources[path]
    {
      if path in sources then Some(sources[path]) else None
    }

    function GetRealFilePath(path: string): (r: string)
      reads this
      ensures r == RealFilePath(realPaths, path)
    {
      RealFilePath(realPaths, path)
    }
  }

  // ---------------------------------------------------------------------------
  // Compiler host: program roots, the raw-file cache and the source hook
  // ---------------------------------------------------------------------------

  /** The `.d.ts` file names of the tsconfig, in order. */
  function Definitions(fileNames: seq<string>): (r: seq<string>)
    ensures forall f :: f in r <==> f in fileNames && EndsWith(f, ".d.ts")
  {
    if fileNames == [] then []
    else (if EndsWith(fileNames[0], ".d.ts") then [fileNames[0]] else []) + Definitions(fileNames[1..])
  }

  /** The cache serves a name only when it holds a non-empty text for it:
      `rawFileCache[fileName]` is tested for truthiness. */
  predicate Served(cache: map<string, string>, fileName: string) {
    fileName in cache && cache[fileName] != ""
  }

  /** `host.readFile(fileName)` with `onDisk` what `readFileSync` would give
      now (`None` when it throws): the content returned, or the failure, and
      the cache afterwards. */
  function CachedRead(cache: map<string, string>, fileName: string, onDisk: Option<string>)
    : (r: (Option<string>, map<string, string>))
  {
    if Served(cache, fileName) then (Some(cache[fileName]), cache)
    else match onDisk
      case None => (None, cache)
      case Some(text) => (Some(text), cache[fileName := text])
  }

  /** A name whose non-empty text was read once is served from the cache from
      then on: every later read returns that text whatever the disk now holds
      (even a read failure), and leaves the cache as it was. */
  lemma ReadOnceThenCached(cache: map<string, string>, fileName: string, first: string,
                           later: Option<string>)
    requires first != ""
    ensures var (r1, c1) := CachedRead(cache, fileName, Some(first));
            r1.Some? &&
            CachedRead(c1, fileName, later) == (r1, c1) &&
            (!Served(cache, fileName) ==> r1 == Some(first))
  {
  }

  /** Reads of one name against a sequence of disk states: what each read
      returns. */
  function ReadsOf(cache: map<string, string>, fileName: string, disk: seq<Option<string>>)
    : (r: seq<Option<string>>)
    ensures |r| == |disk|
    decreases |disk|
  {
    if disk == [] then []
    else
      var (content, cache') := CachedRead(cache, fileName, disk[0]);
      [content] + ReadsOf(cache', fileName, disk[1..])
  }

  /** Entries are never evicted: once a non-empty text is read, every later
      read of that name, however often the file changes on disk, returns it. */
  lemma {:induction false} ServedForever(cache: map<string, string>, fileName: string,
                                         disk: seq<Option<string>>)
    requires Served(cache, fileName)
    ensures forall i :: 0 <= i < |disk| ==> ReadsOf(cache, fileName, disk)[i] == Some(cache[fileName])
    decreases |disk|
  {
    if disk != [] {
      ServedForever(cache, fileName, disk[1..]);
    }
  }

  /** A file whose content is empty is never served from the cache: every
      read of it goes back to the disk. */
  lemma {:induction false} EmptyFileAlwaysReread(cache: map<string, string>, fileName: string,
                                                  disk: seq<Option<string>>)
    requires !Served(cache, fileName)
    requires forall i :: 0 <= i < |disk| ==> disk[i] == Some("")
    ensures forall i :: 0 <= i < |disk| ==> ReadsOf(cache, fileName, disk)[i] == disk[i]
    decreases |disk|
  {
    if disk != [] {
      var (_, cache') := CachedRead(cache, fileName, disk[0]);
      EmptyFileAlwaysReread(cache', fileName, disk[1..]);
    }
  }

  /** The TypeScript compiler host with its two hooks replaced. */
  class CompilerHost {
    const store: VirtualSourceStore
    var rawFileCache: map<string, string>
    /** The names read from disk, in order. */
    ghost var diskReads: seq<string>

    constructor (store: VirtualSourceStore)
      ensures this.store == store && rawFileCache == map[] && diskReads == []
    {
      this.store := store;
      rawFileCache := map[];
      diskReads := [];
    }

    /** `host.readFile`. */
    method ReadFile(fileName: string, onDisk: Option<string>) returns (content: Option<string>)
      modifies this`rawFileCache, this`diskReads
      ensures (content, rawFileCache) == CachedRead(old(rawFileCache), fileName, onDisk)
      ensures diskReads == if Served(old(rawFileCache), fileName) then old(diskReads)
                           else old(diskReads) + [fileName]
    {
      if fileName in rawFileCache && rawFileCache[fileName] != "" {
        content := Some(rawFileCache[fileName]);
        return;
      }
      diskReads := diskReads + [fileName];
      match onDisk {
        case None =>
          content := None;
        case Some(text) =>
          rawFileCache := rawFileCache[fileName := text];
          content := Some(text);
      }
    }

    /** `host.getSourceFile`: the language version and the flags are ignored;
        every request is answered by the store. */
    function GetSourceFile(fileName: string, languageVersion: int, shouldCreateNewSourceFile: bool)
      : (r: Option<SourceRecord>)
      reads this, store
      ensures r == store.GetSource(fileName)
      ensures r.Some? <==> fileName in store.sources
    {
      store.GetSource(fileName)
    }
  }

  // ---------------------------------------------------------------------------
  // Diagnostics
  // ---------------------------------------------------------------------------

  /** Where a diagnostic sits: its file name (possibly virtual) and the
      0-based line and character the compiler computes for its start. */
  datatype Location = Location(fileName: string, line: nat, character: nat)

  /** A compiler diagnostic; `message` is its flattened message text. */
  datatype Diagnostic = Diagnostic(code: nat, file: Option<Location>, message: string)

  /** A source file of the program, with the diagnostics the compiler
      reports for it. */
  datatype SourceFile = SourceFile(fileName: string, semantic: seq<Diagnostic>,
                                   syntactic: seq<Diagnostic>)

  /** The position shown for a location: 1-based line and column. */
  function PositionText(loc: Location): (r: string)
  {
    "(" + NatToString(loc.line + 1) + "," + NatToString(loc.character + 1) + ")"
  }

  /** One rendered diagnostic (colours are not modelled). */
  function RenderDiagnostic(d: Diagnostic, realPaths: map<string, string>): (r: string)
  {
    "TS" + NatToString(d.code) + " "
    + (match d.file
       case None => ""
       case Some(loc) => RealFilePath(realPaths, loc.fileName) + " " + PositionText(loc) + ":\n")
    + d.message
  }

  /** `renderDiagnostics`: one string per diagnostic, in order. */
  function RenderDiagnostics(ds: seq<Diagnostic>, realPaths: map<string, string>): (r: seq<string>)
    ensures |r| == |ds|
    ensures forall i :: 0 <= i < |ds| ==> r[i] == RenderDiagnostic(ds[i], realPaths)
  {
    seq(|ds|, i requires 0 <= i < |ds| => RenderDiagnostic(ds[i], realPaths))
  }

  /** A rendered diagnostic starts with `TS`, then the digits of its code
      (which read back to the code), then a space; it ends with the message. */
  lemma RenderedCode(d: Diagnostic, realPaths: map<string, string>)
    ensures var r := RenderDiagnostic(d, realPaths);
            var k := |NatToString(d.code)|;
            StartsWith(r, "TS") && 2 + k < |r| && r[2 + k] == ' ' &&
            (forall i :: 2 <= i < 2 + k ==> IsDigit(r[i])) &&
            ParseNat(r[2..2 + k]) == d.code &&
            EndsWith(r, d.message)
  {
    var r := RenderDiagnostic(d, realPaths);
    var code := NatToString(d.code);
    var rest := (match d.file
       case None => ""
       case Some(loc) => RealFilePath(realPaths, loc.fileName) + " " + PositionText(loc) + ":\n")
       + d.message;
    assert r == "TS" + code + " " + rest;
    assert r[2..2 + |code|] == code;
    ParseNatToString(d.code);
    assert r[|r| - |d.message|..] == d.message;
  }

  /** A located diagnostic names its real file and shows its 0-based
      position as 1-based line and column. */
  lemma RenderedLocation(d: Diagnostic, realPaths: map<string, string>)
    requires d.file.Some?
    ensures var r := RenderDiagnostic(d, realPaths);
            var loc := d.file.value;
            Contains(r, RealFilePath(realPaths, loc.fileName) + " ") &&
            Contains(r, "(" + NatToString(loc.line + 1) + "," + NatToString(loc.character + 1) + "):\n")
  {
    var loc := d.file.value;
    var head := "TS" + NatToString(d.code) + " ";
    var name := RealFilePath(realPaths, loc.fileName) + " ";
    var pos := "(" + NatToString(loc.line + 1) + "," + NatToString(loc.character + 1) + "):\n";
    var r := RenderDiagnostic(d, realPaths);
    assert r == head + name + (pos + d.message);
    ContainsMiddle(head, name, pos + d.message);
    assert r == (head + name) + pos + d.message;
    ContainsMiddle(head + name, pos, d.message);
  }

  /** The errors of one pass: per source in order, skipping `.d.ts` files,
      the rendered semantic diagnostics followed by the syntactic ones. */
  function CollectErrors(sources: seq<SourceFile>, realPaths: map<string, string>): (r: seq<string>)
    decreases |sources|
  {
    if sources == [] then []
    else SourceErrors(sources[0], realPaths) + CollectErrors(sources[1..], realPaths)
  }

  /** What one source contributes: nothing for a `.d.ts` file, otherwise its
      semantic then its syntactic diagnostics, rendered. */
  function SourceErrors(s: SourceFile, realPaths: map<string, string>): (r: seq<string>)
    ensures |r| == if EndsWith(s.fileName, ".d.ts") then 0 else |s.semantic| + |s.syntactic|
  {
    if EndsWith(s.fileName, ".d.ts") then []
    else RenderDiagnostics(s.semantic + s.syntactic, realPaths)
  }

  /** The number of diagnostics a pass reports: those of non-declaration files. */
  function DiagnosticCount(sources: seq<SourceFile>): nat
    decreases |sources|
  {
    if sources == [] then 0
    else
      (if EndsWith(sources[0].fileName, ".d.ts") then 0
       else |sources[0].semantic| + |sources[0].syntactic|)
      + DiagnosticCount(sources[1..])
  }

  /** Error collection is compositional over the source list. */
  lemma {:induction false} CollectErrorsAppend(a: seq<SourceFile>, b: seq<SourceFile>,
                                               realPaths: map<string, string>)
    ensures CollectErrors(a + b, realPaths) == CollectErrors(a, realPaths) + CollectErrors(b, realPaths)
    decreases |a|
  {
    if a == [] {
      assert a + b == b;
    } else {
      assert (a + b)[0] == a[0];
      assert (a + b)[1..] == a[1..] + b;
      CollectErrorsAppend(a[1..], b, realPaths);
    }
  }

  lemma CollectErrorsSnoc(sources: seq<SourceFile>, i: nat, realPaths: map<string, string>)
    requires i < |sources|
    ensures CollectErrors(sources[..i + 1], realPaths)
            == CollectErrors(sources[..i], realPaths) + SourceErrors(sources[i], realPaths)
  {
    assert sources[..i + 1] == sources[..i] + [sources[i]];
    CollectErrorsAppend(sources[..i], [sources[i]], realPaths);
    assert CollectErrors([sources[i]], realPaths) == SourceErrors(sources[i], realPaths);
  }

  /** One error per diagnostic of a non-declaration file; declaration files
      contribute nothing. */
  lemma {:induction false} CollectErrorsCount(sources: seq<SourceFile>, realPaths: map<string, string>)
    ensures |CollectErrors(sources, realPaths)| == DiagnosticCount(sources)
    ensures (forall i :: 0 <= i < |sources| ==> EndsWith(sources[i].fileName, ".d.ts"))
            ==> CollectErrors(sources, realPaths) == []
    decreases |sources|
  {
    if sources != [] {
      CollectErrorsCount(sources[1..], realPaths);
    }
  }

  /** What a finished pass reports. */
  datatype CheckOutcome =
    | TypesOk
    | ErrorsFound(notification: string, output: string)

  /** The notification of a failed pass: the singular sentence for one error,
      otherwise the count, which reads back, between the fixed words. */
  function ErrorNotice(n: nat): (r: string)
    ensures StartsWith(r, "You have ")
    ensures n == 1 ==> r == "You have one TypeScript check error!"
    ensures n != 1 ==> EndsWith(r, " TypeScript check errors!")
    ensures n != 1 ==> |r| > 34 && (forall i :: 9 <= i < |r| - 25 ==> IsDigit(r[i]))
                       && ParseNat(r[9..|r| - 25]) == n
  {
    if n == 1 then
      "You have one TypeScript check error!"
    else
      var digits := NatToString(n);
      var r := "You have " + digits + " TypeScript check errors!";
      EndsWithAppend("You have " + digits, " TypeScript check errors!");
      assert r[..9] == "You have ";
      assert r[9..|r| - 25] == digits;
      NatToStringWellFormed(n);
      ParseNatToString(n);
      r
  }

  /** The report of a pass: success exactly when there are no errors;
      otherwise a notification naming the count, and the errors separated by
      blank lines. */
  function PassOutcome(errors: seq<string>): (r: CheckOutcome)
    ensures r.TypesOk? <==> errors == []
    ensures r.ErrorsFound? ==> r.notification == ErrorNotice(|errors|)
  {
    if |errors| == 0 then TypesOk
    else ErrorsFound(ErrorNotice(|errors|), "\n" + Join(errors, "\n\n") + "\n")
  }

  // ---------------------------------------------------------------------------
  // Debounce
  // ---------------------------------------------------------------------------

  /** The quiet period, in milliseconds, before a recheck runs. */
  const DebounceWindow: nat := 300

  /** The single timer handle: nothing pending, or one recheck due at `deadline`. */
  datatype Timer = Idle | Armed(deadline: nat)

  /** What the timer sees: a debounce call, or the clock reaching a time. */
  datatype TimerEvent = Trigger(at: nat) | Tick(at: nat)

  /** One event: a trigger cancels any pending timer and arms a new one; a
      tick fires the pending recheck once its deadline has come. The second
      component is the number of rechecks started. */
  function TimerStep(t: Timer, e: TimerEvent): (r: (Timer, nat))
    ensures r.1 <= 1
    ensures e.Trigger? ==> r == (Armed(e.at + DebounceWindow), 0)
    ensures e.Tick? ==> (r.1 == 1 <==> t.Armed? && t.deadline <= e.at)
  {
    match e
    case Trigger(now) => (Armed(now + DebounceWindow), 0)
    case Tick(now) =>
      if t.Armed? && t.deadline <= now then (Idle, 1) else (t, 0)
  }

  /** A run of timer events: the timer afterwards and the rechecks started. */
  function TimerRun(t: Timer, es: seq<TimerEvent>): (r: (Timer, nat))
    decreases |es|
  {
    if es == [] then (t, 0)
    else
      var (t1, n1) := TimerStep(t, es[0]);
      var (t2, n2) := TimerRun(t1, es[1..]);
      (t2, n1 + n2)
  }

  function Triggers(times: seq<nat>): (r: seq<TimerEvent>)
    ensures |r| == |times|
    ensures forall i :: 0 <= i < |times| ==> r[i] == Trigger(times[i])
  {
    seq(|times|, i requires 0 <= i < |times| => Trigger(times[i]))
  }

  /** After a burst of triggers the only pending recheck is due one window
      after the last of them; nothing ran meanwhile. */
  lemma {:induction false} BurstLeavesOneTimer(t: Timer, times: seq<nat>)
    requires |times| > 0
    ensures TimerRun(t, Triggers(times)) == (Armed(times[|times| - 1] + DebounceWindow), 0)
    decreases |times|
  {
    if |times| > 1 {
      BurstLeavesOneTimer(Armed(times[0] + DebounceWindow), times[1..]);
      assert Triggers(times)[1..] == Triggers(times[1..]);
    }
  }

  /** Debounce coalescing: a burst of triggers with no firing in between,
      followed by the quiet window, yields exactly one recheck. */
  lemma BurstYieldsOneCheck(t: Timer, times: seq<nat>, quiet: nat)
    requires |times| > 0
    requires quiet >= times[|times| - 1] + DebounceWindow
    ensures TimerRun(t, Triggers(times) + [Tick(quiet)]) == (Idle, 1)
  {
    BurstLeavesOneTimer(t, times);
    TimerRunAppend(t, Triggers(times), [Tick(quiet)]);
  }

  /** Runs compose: the events after a prefix start from the timer the
      prefix left. */
  lemma {:induction false} TimerRunAppend(t: Timer, a: seq<TimerEvent>, b: seq<TimerEvent>)
    ensures var (ta, na) := TimerRun(t, a);
            var (tb, nb) := TimerRun(ta, b);
            TimerRun(t, a + b) == (tb, na + nb)
    decreases |a|
  {
    if a == [] {
      assert a + b == b;
    } else {
      assert (a + b)[0] == a[0];
      assert (a + b)[1..] == a[1..] + b;
      TimerRunAppend(TimerStep(t, a[0]).0, a[1..], b);
    }
  }

  /** A trigger inside the window of a pending timer pushes the recheck back:
      the clock reaching the old deadline starts nothing. */
  lemma RetriggerPostpones(first: nat, second: nat, tick: nat)
    requires first <= second && tick < second + DebounceWindow
    ensures TimerRun(Idle, [Trigger(first), Trigger(second), Tick(tick)])
            == (Armed(second + DebounceWindow), 0)
  {
    var es := [Trigger(first), Trigger(second), Tick(tick)];
    assert es[1..] == [Trigger(second), Tick(tick)];
    assert es[1..][1..] == [Tick(tick)];
    assert TimerRun(Armed(second + DebounceWindow), [Tick(tick)])
        == (Armed(second + DebounceWindow), 0);
    assert TimerRun(Armed(first + DebounceWindow), es[1..])
        == (Armed(second + DebounceWindow), 0);
  }

  // ---------------------------------------------------------------------------
  // Watch events
  // ---------------------------------------------------------------------------

  /** The checker: its store, its host, the debounce timer and the clock. */
  class TypeScriptCheckerTool {
    var store: VirtualSourceStore
    var host: CompilerHost
    var timer: Timer
    var now: nat
    /** The rechecks the timer has started. */
    var checksStarted: nat

    ghost predicate Valid()
      reads this, store, host
    {
      host.store == store && store.Valid()
    }

    /** `setupCompilerHost`: a fresh store whose roots are the JS entry and
        the tsconfig's `.d.ts` files, and a host in front of it. */
    constructor (jsEntry: string, fileNames: seq<string>)
      ensures Valid() && fresh(store) && fresh(host)
      ensures forall p :: p in store.entryFilePaths <==>
                p == jsEntry || (p in fileNames && EndsWith(p, ".d.ts"))
      ensures |store.entryFilePaths| > 0 && store.entryFilePaths[0] == jsEntry
      ensures store.sources == map[] && host.rawFileCache == map[]
      ensures timer == Idle && checksStarted == 0
    {
      var s := new VirtualSourceStore();
      s.IncludeFile(jsEntry);
      s.IncludeFiles(Definitions(fileNames));
      store := s;
      host := new CompilerHost(s);
      timer := Idle;
      now := 0;
      checksStarted := 0;
    }

    /** `for (let error of newErrors) errors.push(error)`. */
    static method PushAll(errors: seq<string>, newErrors: seq<string>) returns (r: seq<string>)
      ensures r == errors + newErrors
    {
      r := errors;
      var j := 0;
      while j < |newErrors|
        invariant 0 <= j <= |newErrors|
        invariant r == errors + newErrors[..j]
      {
        r := r + [newErrors[j]];
        assert newErrors[..j + 1] == newErrors[..j] + [newErrors[j]];
        j := j + 1;
      }
      assert newErrors[..j] == newErrors;
    }

    /** `typeCheck`: the errors of one pass over the program's sources, and
        whether it succeeded. */
    method TypeCheck(sources: seq<SourceFile>) returns (errors: seq<string>, outcome: CheckOutcome)
      ensures errors == CollectErrors(sources, store.realPaths)
      ensures |errors| == DiagnosticCount(sources)
      ensures outcome == PassOutcome(errors)
      ensures outcome.TypesOk? <==> DiagnosticCount(sources) == 0
    {
      var realPaths := store.realPaths;
      errors := [];
      var i := 0;
      while i < |sources|
        invariant 0 <= i <= |sources|
        invariant errors == CollectErrors(sources[..i], realPaths)
      {
        var source := sources[i];
        if !EndsWith(source.fileName, ".d.ts") {
          var newErrors := RenderDiagnostics(source.semantic + source.syntactic, realPaths);
          errors := PushAll(errors, newErrors);
        }
        CollectErrorsSnoc(sources, i, realPaths);
        i := i + 1;
      }
      assert sources[..i] == sources;
      CollectErrorsCount(sources, realPaths);
      outcome := PassOutcome(errors);
    }

    /** The `debounce` closure: cancel the pending timer, arm a new one. */
    method Debounce()
      modifies this`timer
      ensures (timer, 0) == TimerStep(old(timer), Trigger(now))
    {
      timer := Armed(now + DebounceWindow);
    }

    /** `add`: the file is read into the store; once the read completes, a
        recheck is always scheduled. `toUnix` is `upath.toUnix`; `read` is
        what the store's asynchronous read gives, `None` when it fails, in
        which case the promise rejects: the store keeps its sources and no
        recheck is scheduled. */
    method OnAdd(toUnix: string -> string, file: string, read: Option<string>)
      requires Valid()
      modifies store`sources, this`timer
      ensures Valid()
      ensures read.None? ==> store.sources == old(store.sources) && timer == old(timer)
      ensures read.Some? ==> store.sources == UpdateSource(old(store.sources), toUnix(file), read.value).1
                             && timer == Armed(now + DebounceWindow)
    {
      var path := toUnix(file);
      if read.None? {
        return;
      }
      var changed := store.AddOrUpdateSource(path, read.value);
      Debounce();
    }

    /** `change`: a recheck is scheduled only when the read completes and the
        store reports a change. */
    method OnChange(toUnix: string -> string, file: string, read: Option<string>) returns (changed: bool)
      requires Valid()
      modifies store`sources, this`timer
      ensures Valid()
      ensures read.None? ==> !changed && store.sources == old(store.sources) && timer == old(timer)
      ensures read.Some? ==> (changed, store.sources) == UpdateSource(old(store.sources), toUnix(file), read.value)
      ensures timer == if changed then Armed(now + DebounceWindow) else old(timer)
    {
      var path := toUnix(file);
      if read.None? {
        return false;
      }
      changed := store.AddOrUpdateSource(path, read.value);
      if changed {
        Debounce();
      }
    }

    /** `unlink`: a recheck is scheduled only when a removal happened. */
    method OnUnlink(toUnix: string -> string, file: string) returns (deleted: bool)
      requires Valid()
      modifies store`sources, this`timer
      ensures Valid()
      ensures (deleted, store.sources) == RemoveSource(old(store.sources), toUnix(file))
      ensures timer == if deleted then Armed(now + DebounceWindow) else old(timer)
    {
      var path := toUnix(file);
      deleted := store.TryRemoveSource(path);
      if deleted {
        Debounce();
      }
    }

    /** The clock advances to `at`; a due timer fires and starts one recheck. */
    method Elapse(at: nat) returns (fired: bool)
      requires now <= at
      modifies this`now, this`timer, this`checksStarted
      ensures now == at
      ensures (timer, if fired then 1 else 0) == TimerStep(old(timer), Tick(at))
      ensures checksStarted == old(checksStarted) + (if fired then 1 else 0)
    {
      now := at;
      fired := timer.Armed? && timer.deadline <= at;
      if fired {
        timer := Idle;
        checksStarted := checksStarted + 1;
      }
    }
  }
}
