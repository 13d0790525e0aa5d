/** Reconciling the build flags, project settings, user settings, `.env`
    values and tsconfig into the one record of variables every build tool
    reads. */
module CompileVariables {
  import opened UserSettingsManager

  /** The command-line build flags. */
  datatype BuildFlags = BuildFlags(
    env: map<string, string>,
    hot: bool, production: bool, watch: bool, sourceMap: bool, stats: bool, verbose: bool)

  /** The project settings read from package.json. */
  datatype ProjectSettings = ProjectSettings(
    root: string, input: string, output: string, jsOut: string, cssOut: string,
    alias: map<string, string>, externals: map<string, string>,
    port1: nat, port2: nat)

  /** The compiled variables record. `typescriptConfiguration` is the raw
      tsconfig, carried along untouched. */
  datatype Variables = Variables(
    root: string, input: string, output: string, jsOut: string, cssOut: string,
    alias: map<string, string>, externals: map<string, string>,
    env: map<string, string>,
    packageManager: string, muteNotification: bool,
    production: bool, sourceMap: bool, watch: bool, stats: bool, verbose: bool, hot: bool,
    port1: nat, port2: nat,
    typescriptConfiguration: string)

  /** `Object.assign(dotEnv, flagsEnv)`: the `.env` values overlaid by the
      command-line ones. */
  function OverlayEnv(dotEnv: map<string, string>, flagsEnv: map<string, string>): (r: map<string, string>)
    ensures r.Keys == dotEnv.Keys + flagsEnv.Keys
    ensures forall k :: k in flagsEnv ==> r[k] == flagsEnv[k]
    ensures forall k :: k in dotEnv && k !in flagsEnv ==> r[k] == dotEnv[k]
  {
    dotEnv + flagsEnv
  }

  /** The record `compileVariables` returns. */
  function Compiled(flags: BuildFlags, project: ProjectSettings, user: UserSettings,
                    dotEnv: map<string, string>, typescriptConfiguration: string): (v: Variables)
    // hot mode forces a watching development build
    ensures flags.hot ==> !v.production && v.watch
    // stats only for a production build that does not watch
    ensures v.stats <==> flags.stats && v.production && !v.watch
    ensures !flags.hot ==> v.production == flags.production && v.watch == flags.watch
    ensures v.env == OverlayEnv(dotEnv, flags.env)
    ensures v.hot == flags.hot && v.sourceMap == flags.sourceMap && v.verbose == flags.verbose
  {
    var production := if flags.hot then false else flags.production;
    var watch := if flags.hot then true else flags.watch;
    Variables(
      project.root, project.input, project.output, project.jsOut, project.cssOut,
      project.alias, project.externals,
      OverlayEnv(dotEnv, flags.env),
      user.packageManager, user.muteNotification,
      production, flags.sourceMap, watch,
      if !production || watch then false else flags.stats,
      flags.verbose, flags.hot,
      project.port1, project.port2,
      typescriptConfiguration)
  }

  /** Without hot mode, a production build that does not watch takes every
      build flag as given. */
  lemma FlagsPassThrough(flags: BuildFlags, project: ProjectSettings, user: UserSettings,
                         dotEnv: map<string, string>, tsconfig: string)
    requires !flags.hot && flags.production && !flags.watch
    ensures var v := Compiled(flags, project, user, dotEnv, tsconfig);
            v.hot == flags.hot && v.production == flags.production && v.watch == flags.watch &&
            v.sourceMap == flags.sourceMap && v.stats == flags.stats && v.verbose == flags.verbose
  {
  }

  /** Project fields, user settings and the tsconfig are copied verbatim. */
  lemma CopiedVerbatim(flags: BuildFlags, project: ProjectSettings, user: UserSettings,
                       dotEnv: map<string, string>, tsconfig: string)
    ensures var v := Compiled(flags, project, user, dotEnv, tsconfig);
            ProjectSettings(v.root, v.input, v.output, v.jsOut, v.cssOut, v.alias, v.externals,
                            v.port1, v.port2) == project &&
            UserSettings(v.muteNotification, v.packageManager) == user &&
            v.typescriptConfiguration == tsconfig
  {
  }

  /** Compiling is stable: feeding the result's own flags back in changes
      nothing, so the overrides reach a fixed point in one pass. */
  lemma CompileIsStable(flags: BuildFlags, project: ProjectSettings, user: UserSettings,
                        dotEnv: map<string, string>, tsconfig: string)
    ensures var v := Compiled(flags, project, user, dotEnv, tsconfig);
            var again := BuildFlags(v.env, v.hot, v.production, v.watch, v.sourceMap, v.stats, v.verbose);
            Compiled(again, project, user, v.env, tsconfig) == v
  {
  }

  /** The "Simple" test case: nothing overridden, env merged. */
  lemma SimpleCase()
    ensures var v := Compiled(
              BuildFlags(map["foo" := "bar"], false, true, false, true, true, false),
              ProjectSettings("root", "client", "wwwroot", "ipack.js", "ipack.css", map[], map[], 0, 0),
              UserSettings(false, "yarn"), map["hello" := "world"], "tsconfig");
            v.env == map["foo" := "bar", "hello" := "world"] &&
            v.production && !v.watch && v.sourceMap && v.stats && !v.verbose && !v.hot
  {
  }

  /** The "Overrides" test case: hot mode turns production, watch and stats
      around; the flag's env value wins over the `.env` one. */
  lemma OverridesCase()
    ensures var v := Compiled(
              BuildFlags(map["foo" := "bar"], true, true, false, false, true, true),
              ProjectSettings("root", "src", "www", "bundle.js", "bundle.css",
                              map["vue" := "vue/dist/vue.esm"], map["jquery" := "$"], 20178, 20179),
              UserSettings(true, "npm"), map["foo" := "zero"], "tsconfig");
            v.env == map["foo" := "bar"] &&
            !v.production && v.watch && !v.sourceMap && !v.stats && v.verbose && v.hot &&
            v.alias == map["vue" := "vue/dist/vue.esm"] && v.port1 == 20178
  {
  }

  /** The caller's `.env` object, which `Object.assign` updates in place. */
  class EnvObject {
    var entries: map<string, string>

    constructor (entries: map<string, string>)
      ensures this.entries == entries
    {
      this.entries := entries;
    }
  }

  /** `compileVariables`: builds the record from its inputs, then applies the
      hot-mode and stats overrides one after the other. The caller's `.env`
      object is overlaid in place and holds exactly the result's `env`. */
  method CompileVariables(flags: BuildFlags, project: ProjectSettings, user: UserSettings,
                          dotEnv: EnvObject, typescriptConfiguration: string) returns (v: Variables)
    modifies dotEnv
    ensures v == Compiled(flags, project, user, old(dotEnv.entries), typescriptConfiguration)
    ensures dotEnv.entries == v.env
  {
    dotEnv.entries := dotEnv.entries + flags.env;
    v := Variables(
      project.root, project.input, project.output, project.jsOut, project.cssOut,
      project.alias, project.externals,
      dotEnv.entries,
      user.packageManager, user.muteNotification,
      flags.production, flags.sourceMap, flags.watch, flags.stats, flags.verbose, flags.hot,
      project.port1, project.port2,
      typescriptConfiguration);
    if v.hot {
      v := v.(production := false);
      v := v.(watch := true);
    }
    if v.production == false || v.watch {
      v := v.(stats := false);
    }
  }
}
