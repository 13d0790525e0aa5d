# instapack build core, modelled in Dafny

instapack is a front-end build tool. It compiles TypeScript with webpack,
type-checks the project incrementally, concatenates legacy script lists into
minified bundles and logs its progress to the console. This project models
the decision-making core of that tool and proves properties of the model.
One module covers each source file:

- `TypeScriptCheckerTool` (checker_tool.dfy) models incremental type checking:
  - the compiler host, which reads through a read-once raw-file cache and answers source requests from the in-memory source store;
  - the type-check pass, which collects rendered diagnostics;
  - the watch policy for add, change and unlink events;
  - the single-timer, trailing-edge debounce.
- `TypeScriptBuildEngine` (build_engine.dfy) models the tsconfig-to-webpack translation:
  - `paths` become aliases;
  - the `*` path becomes module folders;
  - the devtool choice, the rule list and the public output path;
  - the grow-only set of hot-reload wormhole files.
- `CompileVariables` (compile_variables.dfy) models how build flags, project settings, user settings, `.env` and the tsconfig are reconciled.
- `UserSettingsManager` (user_settings.dfy) models the registry of setting keys, validation, sanitising the settings file, and setting one key.
- `ConcatBuildTool` (concat_build_tool.dfy) models the newer concat build:
  - target normalisation;
  - keying of the resolved files;
  - the minifier options;
  - the rule for which files a finished target writes.
- `BinCompiler` (bin_compiler.dfy) models the gulp-era compiler:
  - the parallel loader chains;
  - the webpack configuration;
  - the resolve-and-concatenate loop;
  - the concat stream and the countdown that ends it.
- `SrcCompiler` (src_compiler.dfy) models the Browserify-era compiler:
  - the server port switching watch mode on;
  - source-map path flattening;
  - its concat task, both as written and corrected (see Findings).
- `PrettyObject` (pretty_object.dfy) models the recursive, indented console rendering of JavaScript values.
- `Shout` (shout.dfy) models the logger:
  - zero-padded time stamps;
  - joining log tokens into one message;
  - the framing of each kind of line;
  - the notification flag.

`Strings` (strings.dfy) holds the JavaScript string operations the sources
use, written out over `seq<char>`. `Wrappers` (wrappers.dfy) holds `Option`
and `Result`.

The modelling follows the form of the source:

- Code that keeps state in objects becomes classes with `modifies` clauses:
  - the raw-file cache;
  - the source store;
  - the debounce timer;
  - the wormhole set;
  - the caller's `.env` object;
  - the settings object;
  - the concat stream and its counter;
  - the shared compiler flags;
  - the logger flags.
- Loops become methods with invariants. Each is proved equal to a specification function, and the properties are proved about that function.
- Asynchronous completion is given explicitly as input: the settled outcome of each started promise, in the order they settle.
- File contents, module resolution, path joining (`upath.join`, `upath.toUnix`), the clock and the CPU count are parameters.
- Colouring (chalk) is the identity.

## Model

| member | source | states |
|---|---|---|
| TypeScriptCheckerTool.UpdateSource | src/TypeScriptCheckerTool.ts:175-189 | the store reports a change iff the path is new or its text differs; the path then holds the new text; other paths are untouched; without a change the store is unchanged |
| TypeScriptCheckerTool.RemoveSource | src/TypeScriptCheckerTool.ts:193-197 | removal is reported iff the path was tracked; exactly that path leaves the store |
| TypeScriptCheckerTool.RealFilePath | src/TypeScriptCheckerTool.ts:142 | a path that is not virtual is returned as it is |
| TypeScriptCheckerTool.TouchIsNoChange | src/TypeScriptCheckerTool.ts:180-189 | updating with the text the store already holds reports no change and leaves the store as it was, so no recheck is scheduled |
| TypeScriptCheckerTool.VirtualSourceStore.constructor | src/TypeScriptCheckerTool.ts:52 | a new store is empty and has no roots |
| TypeScriptCheckerTool.VirtualSourceStore.IncludeFile | src/TypeScriptCheckerTool.ts:54 | a root is appended once; the roots stay free of duplicates |
| TypeScriptCheckerTool.VirtualSourceStore.IncludeFiles | src/TypeScriptCheckerTool.ts:55 | afterwards the roots are exactly the old roots plus the given paths, the old ones still first, with no duplicates |
| TypeScriptCheckerTool.VirtualSourceStore.AddOrUpdateSource | src/TypeScriptCheckerTool.ts:175 | the result and the new store are those of `UpdateSource` |
| TypeScriptCheckerTool.VirtualSourceStore.TryRemoveSource | src/TypeScriptCheckerTool.ts:193 | the result and the new store are those of `RemoveSource` |
| TypeScriptCheckerTool.VirtualSourceStore.GetSource | src/TypeScriptCheckerTool.ts:78 | there is a source iff the path is tracked, and it is the tracked record |
| TypeScriptCheckerTool.VirtualSourceStore.GetRealFilePath | src/TypeScriptCheckerTool.ts:142 | maps a virtual path back to its real file |
| TypeScriptCheckerTool.Definitions | src/TypeScriptCheckerTool.ts:53 | exactly the tsconfig file names that end in `.d.ts` |
| TypeScriptCheckerTool.ReadOnceThenCached | src/TypeScriptCheckerTool.ts:59-75 | after a name is read with non-empty text, any later read returns that text whatever the disk holds (even a failing read), and the cache stays as it is |
| TypeScriptCheckerTool.ServedForever | src/TypeScriptCheckerTool.ts:64-67 | once cached with non-empty text, every read in any sequence of disk states returns the cached text, so entries are never evicted |
| TypeScriptCheckerTool.EmptyFileAlwaysReread | src/TypeScriptCheckerTool.ts:64 | a file whose content is empty is never served from the cache; each read returns what the disk gives |
| TypeScriptCheckerTool.CompilerHost.constructor | src/TypeScriptCheckerTool.ts:57-59 | the host starts with an empty raw-file cache, in front of the given store |
| TypeScriptCheckerTool.CompilerHost.ReadFile | src/TypeScriptCheckerTool.ts:60-75 | the content and the new cache follow the cache rule; the disk is read exactly when the cache does not serve the name |
| TypeScriptCheckerTool.CompilerHost.GetSourceFile | src/TypeScriptCheckerTool.ts:77-79 | every request is answered by the store, whatever the language version or flag |
| TypeScriptCheckerTool.RenderDiagnostics | src/TypeScriptCheckerTool.ts:137-152 | one rendered string per diagnostic, in input order |
| TypeScriptCheckerTool.RenderedCode | src/TypeScriptCheckerTool.ts:139-147 | a rendered diagnostic starts with `TS`, then digits that read back as the code, then a space, and ends with the message |
| TypeScriptCheckerTool.RenderedLocation | src/TypeScriptCheckerTool.ts:141-145 | a located diagnostic names the real file and shows the 0-based position as a 1-based `(line,column)` |
| TypeScriptCheckerTool.SourceErrors | src/TypeScriptCheckerTool.ts:103-110 | a `.d.ts` source contributes nothing; any other source contributes one error per semantic and syntactic diagnostic |
| TypeScriptCheckerTool.CollectErrorsAppend | src/TypeScriptCheckerTool.ts:101-114 | collecting errors is compositional over the source list, so the errors come per source, in order |
| TypeScriptCheckerTool.CollectErrorsCount | src/TypeScriptCheckerTool.ts:101-114 | the number of errors equals the number of diagnostics of the non-declaration sources; a program of `.d.ts` files only has no errors |
| TypeScriptCheckerTool.ErrorNotice | src/TypeScriptCheckerTool.ts:117-121 | every notice starts with `You have `; one error gives exactly `You have one TypeScript check error!`; any other count gives digits that read back as the count, then ` TypeScript check errors!` |
| TypeScriptCheckerTool.PassOutcome | src/TypeScriptCheckerTool.ts:115-126 | success iff there are no errors; otherwise the notice for that many errors |
| TypeScriptCheckerTool.TimerStep | src/TypeScriptCheckerTool.ts:159-167 | a trigger replaces any pending timer with one due 300 ms later; a tick starts a recheck iff a timer is pending and due; at most one recheck per step |
| TypeScriptCheckerTool.BurstLeavesOneTimer | src/TypeScriptCheckerTool.ts:160-167 | after a burst of triggers, exactly one timer is pending, due one window after the last trigger, and no recheck has run |
| TypeScriptCheckerTool.BurstYieldsOneCheck | src/TypeScriptCheckerTool.ts:160-167 | a burst followed by the quiet window yields exactly one recheck and leaves no timer |
| TypeScriptCheckerTool.TimerRunAppend | src/TypeScriptCheckerTool.ts:160-167 | event runs compose: the later events start from the timer the earlier ones left |
| TypeScriptCheckerTool.RetriggerPostpones | src/TypeScriptCheckerTool.ts:160-167 | a second trigger cancels the first timer, so reaching the first deadline starts nothing |
| TypeScriptCheckerTool.TypeScriptCheckerTool.constructor | src/TypeScriptCheckerTool.ts:48-58 | the roots are exactly the JS entry (first) and the tsconfig's `.d.ts` files; the caches are empty and no timer is pending |
| TypeScriptCheckerTool.TypeScriptCheckerTool.TypeCheck | src/TypeScriptCheckerTool.ts:92-131 | the pass's errors are the collected errors, one per diagnostic of a non-declaration source; success iff there are none |
| TypeScriptCheckerTool.TypeScriptCheckerTool.Debounce | src/TypeScriptCheckerTool.ts:160-167 | the timer is re-armed exactly as a trigger step does |
| TypeScriptCheckerTool.TypeScriptCheckerTool.OnAdd | src/TypeScriptCheckerTool.ts:172-179 | once the read completes, the text is stored under the Unix path and a recheck is always scheduled; a failed read changes nothing and schedules nothing |
| TypeScriptCheckerTool.TypeScriptCheckerTool.OnChange | src/TypeScriptCheckerTool.ts:180-189 | a recheck is scheduled iff the read completes and the store reports a change; otherwise the timer is untouched |
| TypeScriptCheckerTool.TypeScriptCheckerTool.OnUnlink | src/TypeScriptCheckerTool.ts:190-197 | a recheck is scheduled iff a tracked file was removed |
| TypeScriptCheckerTool.TypeScriptCheckerTool.Elapse | src/TypeScriptCheckerTool.ts:162-166 | when the clock advances, a due timer fires once and counts one recheck |
| TypeScriptBuildEngine.TrimWildcard | src/TypeScriptBuildEngine.ts:125-127 | one trailing `/*` is removed when present; otherwise the key is unchanged |
| TypeScriptBuildEngine.ConvertAliasPath | src/TypeScriptBuildEngine.ts:70-78 | the join of `baseUrl` and the value, with one trailing `/*` removed when present and otherwise unchanged |
| TypeScriptBuildEngine.Contribution | src/TypeScriptBuildEngine.ts:103-128 | an entry contributes iff its key is not `*` and its first value is present and non-empty; then the trimmed key maps to the converted first value |
| TypeScriptBuildEngine.MergedAliases | src/TypeScriptBuildEngine.ts:86-101 | without `paths`, or without a `baseUrl`, the result is the user aliases plus the hot-client entry in hot mode |
| TypeScriptBuildEngine.PathAliasesKeepTruthy | src/TypeScriptBuildEngine.ts:131-134 | an alias with a value is never overwritten, and no key is dropped |
| TypeScriptBuildEngine.PathAliasesOrigin | src/TypeScriptBuildEngine.ts:103-135 | every resulting alias is either a starting alias or the contribution of some `paths` entry |
| TypeScriptBuildEngine.ContributedKeyPresent | src/TypeScriptBuildEngine.ts:103-134 | the key of every usable `paths` entry is in the alias table after the walk, unless it is a name inherited from `Object.prototype` that the table does not hold |
| TypeScriptBuildEngine.FirstContributionWins | src/TypeScriptBuildEngine.ts:103-134 | when `alias[key]` is not truthy at the start, the first entry contributing that key with a non-empty path sets its value for good |
| TypeScriptBuildEngine.MergedAliasesAddPaths | src/TypeScriptBuildEngine.ts:83-138 | with `paths` and a `baseUrl`, every usable entry's key is in the merge (prototype names aside), and the first contributor of a key the user aliases leave untaken sets its value |
| TypeScriptBuildEngine.UserAliasesWin | src/TypeScriptBuildEngine.ts:84-134 | user aliases with a value survive the merge unchanged, and so does the hot-client entry |
| TypeScriptBuildEngine.AddUnique | src/TypeScriptBuildEngine.ts:165-168 | adding to a set keeps it duplicate-free, keeps the first element and adds exactly the new element |
| TypeScriptBuildEngine.FirstIndex | src/TypeScriptBuildEngine.ts:161-169 | the index of the first occurrence: it holds the element, and no earlier index does |
| TypeScriptBuildEngine.DistinctOrder | src/TypeScriptBuildEngine.ts:161-169 | reading back a filled `Set` keeps first-occurrence order: an element listed earlier first occurs earlier in the input |
| TypeScriptBuildEngine.DistinctProperties | src/TypeScriptBuildEngine.ts:161-169 | reading back a filled `Set` gives each element once, the same elements, with the first element first |
| TypeScriptBuildEngine.ConvertAll | src/TypeScriptBuildEngine.ts:163-166 | each `*` value, converted, in order |
| TypeScriptBuildEngine.WildcardModules | src/TypeScriptBuildEngine.ts:161-169 | no duplicates; exactly the converted values plus `node_modules`; the converted values in first-occurrence order, the first one first; `node_modules` last unless it is one of them |
| TypeScriptBuildEngine.WildcardValues | src/TypeScriptBuildEngine.ts:152 | there is a `*` entry iff some key is `*` |
| TypeScriptBuildEngine.OutputPublicPath | src/TypeScriptBuildEngine.ts:50-55 | always ends in `js/`; in hot mode a `http://localhost:` URL, otherwise exactly `js/` |
| TypeScriptBuildEngine.OutputPublicPathPort | src/TypeScriptBuildEngine.ts:51 | the hot URL's port reads back as `port1` |
| TypeScriptBuildEngine.TypeScriptBuildEngine.constructor | src/TypeScriptBuildEngine.ts:46-63 | the public path as above; the parsed options with `noEmit` off and `sourceMap`/`inlineSources` from the variables; no wormholes yet |
| TypeScriptBuildEngine.TypeScriptBuildEngine.MergeTypeScriptPathAlias | src/TypeScriptBuildEngine.ts:83-138 | the alias loop computes `MergedAliases`, whose preservation and addition properties are proved above |
| TypeScriptBuildEngine.TypeScriptBuildEngine.GetWildcardModules | src/TypeScriptBuildEngine.ts:143-170 | undefined unless `baseUrl`, `paths` and a non-empty first `*` value all exist; otherwise the wildcard module list |
| TypeScriptBuildEngine.TypeScriptBuildEngine.WebpackConfigurationDevTool | src/TypeScriptBuildEngine.ts:329-344 | no devtool iff source maps are off; `eval-source-map` iff source maps are on in a development watch; `source-map` otherwise |
| TypeScriptBuildEngine.TypeScriptBuildEngine.TypescriptWebpackRules | src/TypeScriptBuildEngine.ts:188-211 | the TypeScript loader comes last, with the engine's options; babel is present iff babel mode is on |
| TypeScriptBuildEngine.TypeScriptBuildEngine.CreateWebpackRules | src/TypeScriptBuildEngine.ts:311-324 | TypeScript, Vue, templates, CSS in that order, and the JS babel rule iff babel mode is on |
| TypeScriptBuildEngine.TypeScriptBuildEngine.PutWormholes | src/TypeScriptBuildEngine.ts:562-582 | a missing list does nothing; otherwise it writes the listed names that are neither hot updates nor already written; the set only grows, and only by successful writes |
| TypeScriptBuildEngine.WormholeWritesAppend | src/TypeScriptBuildEngine.ts:567-580 | the writes started for a list compose over list append |
| TypeScriptBuildEngine.WormholeWritesFilter | src/TypeScriptBuildEngine.ts:568-575 | a name is written iff it is listed, not a hot update, and not already a wormhole |
| CompileVariables.OverlayEnv | bin/CompileVariables.js:12 | the keys of both maps; the flags' values win; keys found only in `.env` are kept |
| CompileVariables.Compiled | bin/CompileVariables.js:3-33 | hot mode forces development and watch; stats are on iff requested in a non-watching production build; without hot, production and watch pass through; env is the overlay |
| CompileVariables.FlagsPassThrough | bin/CompileVariables.js:15-20 | without hot, a production build that does not watch keeps every flag as given |
| CompileVariables.CopiedVerbatim | bin/CompileVariables.js:4-23 | project fields, user settings and the tsconfig are copied verbatim |
| CompileVariables.CompileIsStable | bin/CompileVariables.js:25-31 | compiling again from the result's own flags changes no flag |
| CompileVariables.SimpleCase | bin/variables-factory/CompileVariables.test.js:5-78 | the "Simple" test: nothing overridden, env merged |
| CompileVariables.OverridesCase | bin/variables-factory/CompileVariables.test.js:80-160 | the "Overrides" test: hot mode turns production, watch and stats around; the flag's env wins |
| CompileVariables.CompileVariables | bin/CompileVariables.js:3-33 | returns the compiled record; the caller's `.env` object now holds the merged env, which is the record's env |
| UserSettingsManager.MapperFor | bin/user-settings/UserSettingsManager.js:20-24 | there is a mapper iff the key is `package-manager` or `mute-notification`; a name inherited from `Object.prototype` gives a truthy non-mapper |
| UserSettingsManager.ValidateUserSetting | bin/user-settings/UserSettingsManager.js:25-30 | throws a TypeError iff the key is inherited from `Object.prototype`; false for any other unregistered key; otherwise that mapper's validator result |
| UserSettingsManager.ReadUserSettings | bin/user-settings/UserSettingsManager.js:32-51 | a failed read gives the defaults (`yarn`, not muted); the package manager is taken only when it is `yarn`, `npm` or `disabled`; the mute flag is taken only when it is a boolean |
| UserSettingsManager.ReadUserSettingsIdempotent | bin/user-settings/UserSettingsManager.js:34-49 | writing sanitised settings back and reading them again gives the same settings |
| UserSettingsManager.SettingsObject.constructor | bin/user-settings/UserSettingsManager.js:53 | the settings object holds the given fields |
| UserSettingsManager.SetUserSetting | bin/user-settings/UserSettingsManager.js:53-61 | an unregistered key throws and changes nothing: the registration error, or a TypeError for a name inherited from `Object.prototype`; otherwise exactly the mapper's field is set, to the transformed value |
| ConcatBuildTool.JsOutputName | src/ConcatBuildTool.ts:155-158 | the result ends in `.js`; `.js` is appended iff the target does not already end in it |
| ConcatBuildTool.JsOutputNameIdempotent | src/ConcatBuildTool.ts:155-158 | naming an output name again changes nothing |
| ConcatBuildTool.NormaliseModules | src/ConcatBuildTool.ts:145-153 | a target is skipped iff its list is missing or has length 0; a string becomes a one-element list |
| ConcatBuildTool.PlanTasksAppend | src/ConcatBuildTool.ts:144-167 | planning is compositional over the targets, so tasks follow target order |
| ConcatBuildTool.PlanTasksShape | src/ConcatBuildTool.ts:144-167 | one task per non-empty target; every task writes a `.js` file from at least one module |
| ConcatBuildTool.Build | src/ConcatBuildTool.ts:140-170 | the tasks are the planned ones; the stale `.map` of each task's output, joined to the output folder, is removed first |
| ConcatBuildTool.FileKeys | src/ConcatBuildTool.ts:79 | the key of each resolution is `/` plus its path relative to the root |
| ConcatBuildTool.KeyedFilesLookup | src/ConcatBuildTool.ts:76-84 | the keys are exactly the computed keys; each holds the content of its last occurrence |
| ConcatBuildTool.DistinctKeysOneEntryEach | src/ConcatBuildTool.ts:76-84 | with distinct keys there is one entry per resolution |
| ConcatBuildTool.ResolveThenReadFiles | src/ConcatBuildTool.ts:70-85 | the filled dictionary is the keyed files of the resolutions and their contents |
| ConcatBuildTool.ConcatOptions | src/ConcatBuildTool.ts:92-108 | outside production compress and mangle are off and beautify is on; in production none is set; with source maps, the map is named after the target, with `url` the target plus `.map`, root `instapack://` and the sources included |
| ConcatBuildTool.TargetWrites | src/ConcatBuildTool.ts:111-134 | a minifier error rejects; otherwise the code is written, and the `.map` file is written iff the result has a non-empty map |
| ConcatBuildTool.SettleTask | src/ConcatBuildTool.ts:161-164 | a failure is logged as `ERROR when concatenating` plus the output name, then the error, and swallowed |
| BinCompiler.ParallelLoaders | bin/Compiler.js:77-96 | empty when not parallel; when parallel, the cache loader comes first iff cached, then the thread loader with one worker fewer than the CPUs |
| BinCompiler.Compiler.constructor | bin/Compiler.js:30 | the settings and flags are fixed |
| BinCompiler.Compiler.GetParallelLoaders | bin/Compiler.js:77-96 | the pushed loaders are `ParallelLoaders` |
| BinCompiler.Compiler.GetTypeScriptWebpackRules | bin/Compiler.js:97-116 | matches `.ts`/`.tsx`; the cached parallel loaders, then `ts-loader`, whose transpile-only and happy-pack modes equal the parallel flag |
| BinCompiler.Compiler.GetTemplatesWebpackRules | bin/Compiler.js:117-129 | matches `.htm`/`.html`; the uncached parallel loaders, then the template loader |
| BinCompiler.Compiler.GetWebpackConfiguration | bin/Compiler.js:155-189 | the entry and output come from the settings; two rules; a devtool iff source maps are on (`source-map` in production, else `eval-source-map`); watch options iff watching, ignoring `node_modules` with a 300 ms aggregate timeout |
| BinCompiler.OnlyTypeScriptIsCached | bin/Compiler.js:98-118 | only the TypeScript rule gets the cache loader; both rules get the same thread loader |
| BinCompiler.NeedPackageRestore | bin/Compiler.js:303-311 | true iff there is a `package.json` and no `node_modules`; the Browserify-era compiler uses the same rule (src/Compiler.ts, lines 276 to 287) |
| BinCompiler.ConcatenationSingle | bin/Compiler.js:326-335 | one module gives its text followed by a newline |
| BinCompiler.ConcatenationAppend | bin/Compiler.js:326-335 | concatenation distributes over list append, with texts in list order; the first failure is the result |
| BinCompiler.ResolveThenConcat | bin/Compiler.js:326-335 | the loop computes `Concatenation`: each module's text and a newline in order, or the first failure |
| BinCompiler.ConcatStream.constructor | bin/Compiler.js:337-338 | the counter starts at the concat count with nothing pushed |
| BinCompiler.ConcatStream.CountDown | bin/Compiler.js:340-345 | the counter drops by one, and the end of the stream is pushed iff it reaches zero |
| BinCompiler.ConcatStream.Push | bin/Compiler.js:362-365 | appends one item; the counter is untouched |
| BinCompiler.SkippedItemsEnds | bin/Compiler.js:346-352 | the skipped targets end the stream once iff the counter reaches zero among them |
| BinCompiler.Pushed | bin/Compiler.js:357-366 | a failed target pushes nothing; a successful one pushes exactly one file, named by `JsOutputName` (so ending in `.js`), holding the concatenated text |
| BinCompiler.SettledItemsEnds | bin/Compiler.js:357-369 | the settled targets push one end iff the counter reaches zero among them, and it is the last item when the last of them brings it there |
| BinCompiler.StartedNames | bin/Compiler.js:346-357 | one name per target that is not skipped |
| BinCompiler.SettledCount | bin/Compiler.js:346-369 | when every started target settles once, the settlements number the targets less the skipped ones |
| BinCompiler.EveryStartedTargetSettles | bin/Compiler.js:336-369 | with the counter at the number of targets and every started target settling once, the stream ends exactly once, last |
| BinCompiler.StreamConcatVinyl | bin/Compiler.js:336-372 | the stream holds the skip pass's items, then each settled target's items in settling order; the counter has dropped once per target |
| BinCompiler.CountDownSkipped | bin/Compiler.js:346-352 | each skipped target counts down once and pushes nothing else |
| BinCompiler.SettleAll | bin/Compiler.js:357-369 | settling the started targets in order appends `SettledItems` and counts down once each |
| BinCompiler.Settle | bin/Compiler.js:357-369 | one settlement pushes its file on success, then counts down whether it succeeded or failed |
| BinCompiler.StreamEndsOnceAfterLastTarget | bin/Compiler.js:340-369 | when the count equals the number of targets, the stream ends exactly once, after everything else |
| BinCompiler.StreamOpenUntilLastTarget | bin/Compiler.js:340-369 | until every started target has settled, the stream has not ended |
| BinCompiler.SkippedLast | bin/Compiler.js:346-352 | when every target is skipped, the end comes last |
| BinCompiler.RunConcatTask | bin/Compiler.js:373-390 | a concat count of zero registers a task that pushes nothing; otherwise the stream is that of `StreamConcatVinyl` |
| SrcCompiler.CompilerFlags.constructor | src/Compiler.ts:48 | the flags hold the given values |
| SrcCompiler.Compiler.constructor | src/Compiler.ts:65-77 | a non-zero server port turns the shared flags' watch on and starts a server on that port; nothing else in the flags changes |
| SrcCompiler.FlattenBrowserifySourcePathCases | src/Compiler.ts:151-161 | a `node_modules` path gains `../`; otherwise a path under `input/js/` loses that prefix; otherwise the path is unchanged; each case reads back to the original |
| SrcCompiler.DependencyRuleFirst | src/Compiler.ts:154-156 | the `node_modules` rule is checked first, even when the input folder is itself `node_modules` |
| SrcCompiler.ScriptPathStripped | src/Compiler.ts:152-157 | `client/js/app.ts` under input `client` becomes `app.ts` |
| SrcCompiler.ResolveThenConcatenate | src/Compiler.ts:311-320 | the loop computes the same `Concatenation` as the gulp-era compiler |
| SrcCompiler.ConcatOutputName | src/Compiler.ts:345 | always the target plus `.js` |
| SrcCompiler.Written | src/Compiler.ts:343-347 | a failed target pushes nothing; a successful one pushes one file, named with `.js` appended |
| SrcCompiler.ConcatOutputNameDoublesSuffix | src/Compiler.ts:345 | `vendor.js` becomes `vendor.js.js`, unlike in the other two versions |
| SrcCompiler.Successes | src/Compiler.ts:343-353 | there are at most as many successes as settled targets |
| SrcCompiler.SettledAsWrittenEnds | src/Compiler.ts:349-352 | as written, the stream ends iff the successes alone bring the counter to zero |
| SrcCompiler.SettledAsWrittenSnoc | src/Compiler.ts:343-353 | one more settlement appends its file and countdown only on success |
| SrcCompiler.ConcatTaskAsWritten | src/Compiler.ts:338-360 | the task as written: the counter drops only on success, and the stream is `SettledAsWritten` |
| SrcCompiler.FailureLeavesStreamOpen | src/Compiler.ts:343-353 | as written, once any target fails the stream never ends, even after all targets have settled |
| SrcCompiler.OneFailedTargetNeverEnds | src/Compiler.ts:343-353 | one target whose module cannot be resolved leaves the stream empty and open |
| SrcCompiler.SettledCorrectedEnds | src/Compiler.ts:349-352 | corrected, the stream ends iff the settled targets bring the counter to zero, and then it ends last |
| SrcCompiler.SettledCorrectedSnoc | src/Compiler.ts:343-353 | corrected, one more settlement appends its file on success and always counts down |
| SrcCompiler.ConcatTask | src/Compiler.ts:338-360 | corrected task: every settled target counts down once; the stream is `SettledCorrected` |
| SrcCompiler.CorrectedStreamEndsOnce | src/Compiler.ts:349-352 | corrected, with every target settled, the stream ends exactly once, after everything else |
| PrettyObject.PropertySpacer | src/PrettyObject.ts:42-65 | `""` iff the value is an empty object or array; a line break iff it is a non-empty one; a space iff it is not an object |
| PrettyObject.Indent | src/PrettyObject.ts:71-77 | exactly `2*level` characters, all spaces |
| PrettyObject.GetLevelSpacer | src/PrettyObject.ts:71-77 | the loop builds exactly `2*level` spaces |
| PrettyObject.NumberStringReadsBack | src/PrettyObject.ts:136-137 | a number renders as an optional minus sign and digits that read back as its magnitude |
| PrettyObject.NonFunctions | src/PrettyObject.ts:101-104 | the kept elements are never functions, and there are no more of them than the input |
| PrettyObject.NonFunctionFields | src/PrettyObject.ts:123-126 | the kept fields are never function-valued, and there are no more of them than the input |
| PrettyObject.ArrayLinesAreElementLines | src/PrettyObject.ts:99-113 | an array renders one line per non-function element, in order: indentation, `-`, the spacer, and the element one level deeper |
| PrettyObject.FieldLinesAreFieldLines | src/PrettyObject.ts:122-135 | an object renders one line per non-function key, in order: indentation, `key:`, the spacer, and the value one level deeper |
| PrettyObject.OnlyFunctionsRenderEmpty | src/PrettyObject.ts:99-113 | an array of functions only, including the empty array, renders as `""` |
| PrettyObject.BrowserifyErrorRendering | src/PrettyObject.ts:83-120 | a Browserify error renders at its own level as the lines `name: Browserify error` and `message: ` plus the message |
| PrettyObject.Render | src/PrettyObject.ts:92-141 | the recursive method renders exactly `Rendered`: `undefined`, `null`, strings as they are, arrays and objects as their lines joined by line breaks, numbers and booleans by `toString`, anything else as `""` |
| PrettyObject.RenderArrayLines | src/PrettyObject.ts:100-111 | the array loop pushes exactly `ArrayLines`: one element line per non-function element, in order |
| PrettyObject.RenderElementLine | src/PrettyObject.ts:106-110 | the line built piece by piece is `ElementLine` |
| PrettyObject.RenderFieldLines | src/PrettyObject.ts:122-133 | the key loop pushes exactly `FieldLines`: one field line per non-function value, in key order |
| PrettyObject.RenderFieldLine | src/PrettyObject.ts:128-132 | the line built piece by piece is `FieldLine` |
| PrettyObject.BrowserifyErrorDelegates | src/PrettyObject.ts:115-120 | a Browserify error renders exactly as the object holding only its name and message, at the same level |
| PrettyObject.StringFieldLine | src/PrettyObject.ts:97-132 | a string-valued field renders as the indentation, `key:`, a space and the string |
| Shout.DoubleDigits | bin/Shout.js:11-18 | `0` and the digit below ten, the decimal form otherwise; two characters below a hundred; reads back as the number |
| Shout.PadZeroToDoubleDigits | bin/Shout.js:11-18 | the step-by-step string is `DoubleDigits` |
| Shout.NowFormattedReadsBack | bin/Shout.js:19-22 | a clock reading formats as `hh:mm:ss`, eight characters whose fields read back as the hours, minutes and seconds |
| Shout.TokenPiece | bin/Shout.js:26-36 | a plain token adds a space and its text; an error adds a line break and its stack, or its `toString()` when it has no stack |
| Shout.ConcatenateTokens | bin/Shout.js:23-39 | the loop computes `ConcatenatedTokens`: each token's piece, in order, and `""` for no tokens |
| Shout.ConcatenatedTokensAppend | bin/Shout.js:23-39 | concatenation distributes over appending token lists |
| Shout.PiecesAppend | bin/Shout.js:25-37 | joining pieces, for any piece function, distributes over appending lists |
| Shout.PlainTokensLength | bin/Shout.js:29-36 | the message of plain tokens is one space longer per token than their texts, and starts with a space |
| Shout.TimedLineParts | bin/Shout.js:41-45 | a timed line is `[`, the time, `]`, then the message, and each part reads back |
| Shout.ErrorLineParts | bin/Shout.js:46-55 | an error or fatal line is a line break, the heading, the message and a line break, and each part reads back |
| Shout.LabelledLine | bin/Shout.js:56-70 | a warning, TypeScript or Sass line starts with its heading, and the message follows it |
| Shout.ShoutState.constructor | bin/Shout.js:71-72 | notifications start on and verbose output starts off |
| Shout.ShoutState.Notify | bin/Shout.js:73-88 | nothing is sent iff notifications are off; otherwise a silent `instapack` notification with the message, or `...` when there are no tokens |
| Shout.ApplyWorkerVariables | bin/workers/TypeScriptBuildWorker.js:14-19 | `verbose` turns verbose output on and `muteNotification` turns notifications off; neither turns anything back |

## Left out

- The file system, the process clock, `os.cpus()`, `require.resolve`, `upath.join`/`relative` and the module resolver: these are parameters of the model.
- Colours: every chalk call is the identity.
- Console output: a log line is modelled as the string it prints. Warnings that only log are not modelled:
  - an empty or string-valued concat list;
  - a `paths` key with more than one value, or with an empty value;
  - `paths` without a `baseUrl`;
  - the concat "NOT watched" line.
- Timing messages are not modelled.
- The TypeScript compiler: each source's diagnostics and their positions are inputs.
- The webpack compiler, dev server, hot client, plugins, stats, gulp/undertaker tasks, Browserify/watchify pipelines, uglify and node-notifier are left out. Only the data passed to them is modelled.
- `VirtualSourceStore` is not part of this model. It is reduced to a path → (text, version) map plus the real-path map and the root list, with the behaviour its call sites rely on:
  - "changed" when the text differs;
  - "removed" when the path was tracked.
  Exotic sources (`.vue`), preloading and `addExoticSources` are not modelled.
- `Settings` is not part of this model. `concatCount` is taken to be the number of concat targets where the stream lemmas need it.
- Asynchrony:
  - the order in which the started concatenations settle is an input;
  - each task's outcome is given as already settled;
  - nothing about interleaving with other tasks is modelled.
- TypeScriptCheckerTool.TypeScriptCheckerTool.OnAdd: the file text is a parameter standing for the store's asynchronous read, and the "tracking" log line is not modelled. A failed read is taken to leave the store as it was; the store's own read is not part of this model.
- TypeScriptCheckerTool.TypeScriptCheckerTool.TypeCheck: a raw-file read that throws during the pass rejects the check, and the timer's closure logs a fatal error. The model's pass takes the sources as already read and cannot fail this way.
- `upath.toUnix` is a parameter of the watch handlers. It replaces back-slashes and also collapses repeated slashes, and the model does not spell it out.
- PrettyObject.Render: numbers are integers only (floating point is not modelled). Object keys are given in iteration order and include inherited enumerable keys.
- PrettyObject.PropertySpacer: it counts every listed key, while `Object.keys` counts only own keys. An object whose only enumerable keys are inherited through a custom prototype would be spaced differently; the model does not tell own from inherited keys. A Browserify error is recognised by a flag rather than by `instanceof Error` and its four truthy fields.
- Shout: `fileOutput` and `prettyBytes` are not modelled (file I/O and byte formatting). A non-Error token is modelled by the string JavaScript's `+` gives it.
- Shout.NowFormattedReadsBack: `Date` is replaced by hours, minutes and seconds given as parameters.
- CompileVariables.CompileVariables: only the `env` of the caller's `.env` object is modelled as shared. Later writes through one alias are not shown in the other.
- SrcCompiler: the minify and uglify stream on the concat output, and the Browserify and Sass tasks, are not modelled.
- SrcCompiler.Compiler.constructor: `chat()` and `registerAllTasks()`, which only log and register, are not modelled.
- SrcCompiler: `resolution[target]` is taken to be a list. A string value would be iterated character by character in the source. That case is not modelled.
- BinCompiler: `getWebpackPlugins`, `webpackStatsErrorsOnly` and the JS/CSS gulp tasks are not modelled (plugin plumbing and logging).
- TypeScriptBuildEngine.HasAlias: a user alias whose key is `__proto__` is not copied as an own key by `Object.assign`. The model copies it like any other key.
- UserSettingsManager: the two mappers' own validators and transformers live in files that are not part of this model. They are parameters.
- TypeScriptBuildEngine: `createWebpackConfiguration`, `displayBuildResults`, the dev server and the wormhole script text are not modelled (webpack plumbing).

## Findings

| source | as written | input that shows it | evidently intended | confidence | as-written member | corrected member |
|---|---|---|---|---|---|---|
| src/Compiler.ts:343-353 | the concat task counts down and ends the stream only inside the success handler of `resolveThenConcatenate`; a rejected promise never counts down | one concat target `vendor` whose module cannot be resolved (concat count 1): nothing is pushed, the counter stays at 1 and the stream never ends, so the task never completes | every target counts down once whether it succeeds or fails, as `bin/Compiler.js:357-369` does, so the stream ends exactly once after the last target | not executed | SrcCompiler.OneFailedTargetNeverEnds | SrcCompiler.CorrectedStreamEndsOnce |
