/** Translating the tsconfig into webpack configuration: `paths` into the
    alias table (never overriding a user alias), the `*` path into module
    lookup folders, the devtool choice, the rule list, the public output path,
    and the grow-only set of hot-reload wormhole files. Path joining
    (`upath.join`) is a parameter; the webpack compiler, dev server and hot
    client are not part of this model. */
module TypeScriptBuildEngine {
  import opened Wrappers
  import opened Strings
  import opened CompileVariables

  /** One entry of tsconfig `paths`, in the object's key order. */
  datatype PathEntry = PathEntry(key: string, values: seq<string>)

  /** The compiler options the engine reads and sets. */
  datatype CompilerOptions = CompilerOptions(
    baseUrl: Option<string>, paths: Option<seq<PathEntry>>,
    noEmit: bool, sourceMap: bool, inlineSources: bool)

  /** Removes one trailing "/" + "*", if there is one. */
  function TrimWildcard(s: string): (r: string)
    ensures EndsWith(s, "/*") ==> r + "/*" == s
    ensures !EndsWith(s, "/*") ==> r == s
  {
    if EndsWith(s, "/*") then s[..|s| - 2] else s
  }

  /** `convertTypeScriptPathToWebpackAliasPath`: the join of `baseUrl` and
      `value`, with one trailing "/" + "*" removed. */
  function ConvertAliasPath(join: (string, string) -> string, baseUrl: string, value: string)
    : (r: string)
    ensures var joined := join(baseUrl, value);
            if EndsWith(joined, "/*") then r + "/*" == joined else r == joined
  {
    TrimWildcard(join(baseUrl, value))
  }

  /** A JavaScript string is truthy when it is not empty. */
  predicate Truthy(s: Option<string>) {
    s.Some? && s.value != ""
  }

  /** The alias a usable `paths` entry contributes: none for the `*` key or
      when the first value is missing or empty; otherwise the key without a
      trailing "/" + "*", and the converted first value. */
  function Contribution(e: PathEntry, baseUrl: string, join: (string, string) -> string)
    : (r: Option<(string, string)>)
    ensures e.key == "*" ==> r.None?
    ensures e.key != "*" && |e.values| > 0 && e.values[0] != "" ==> r.Some?
    ensures r.Some? ==> |e.values| > 0 && e.values[0] != ""
                        && r.value == (TrimWildcard(e.key), ConvertAliasPath(join, baseUrl, e.values[0]))
  {
    if e.key == "*" || |e.values| == 0 || e.values[0] == "" then None
    else Some((TrimWildcard(e.key), ConvertAliasPath(join, baseUrl, e.values[0])))
  }

  /** `alias[key]` is truthy: the table holds a non-empty value for `key`,
      or has none and `key` is inherited from `Object.prototype`. */
  predicate HasAlias(alias: map<string, string>, key: string) {
    if key in alias then alias[key] != "" else key in ObjectPrototypeKeys
  }

  /** The alias table after one entry: a contributed key is written only when
      `alias[key]` is not truthy. */
  function AddPathAlias(alias: map<string, string>, e: PathEntry, baseUrl: string,
                        join: (string, string) -> string): map<string, string>
  {
    match Contribution(e, baseUrl, join)
    case None => alias
    case Some((key, result)) =>
      if !HasAlias(alias, key) then alias[key := result] else alias
  }

  /** The alias table after all `paths` entries, in order. */
  function PathAliases(alias: map<string, string>, entries: seq<PathEntry>, baseUrl: string,
                       join: (string, string) -> string): map<string, string>
    decreases |entries|
  {
    if entries == [] then alias
    else PathAliases(AddPathAlias(alias, entries[0], baseUrl, join), entries[1..], baseUrl, join)
  }

  const HotClientModule := "webpack-hot-client/client"

  /** The user aliases, plus the hot client's resolved path in hot mode. */
  function BaseAliases(user: map<string, string>, hot: bool, hotClientPath: string): (r: map<string, string>)
  {
    if hot then user[HotClientModule := hotClientPath] else user
  }

  /** `mergeTypeScriptPathAlias` as a value. */
  function MergedAliases(user: map<string, string>, hot: bool, hotClientPath: string,
                         options: CompilerOptions, join: (string, string) -> string)
    : (r: map<string, string>)
    ensures options.paths.None? || !Truthy(options.baseUrl) ==> r == BaseAliases(user, hot, hotClientPath)
  {
    var alias := BaseAliases(user, hot, hotClientPath);
    if options.paths.None? then alias
    else if !Truthy(options.baseUrl) then alias
    else PathAliases(alias, options.paths.value, options.baseUrl.value, join)
  }

  /** Aliases with a value are never overwritten, and no key is dropped. */
  lemma {:induction false} PathAliasesKeepTruthy(alias: map<string, string>, entries: seq<PathEntry>,
                                                 baseUrl: string, join: (string, string) -> string)
    ensures alias.Keys <= PathAliases(alias, entries, baseUrl, join).Keys
    ensures forall k :: k in alias && alias[k] != "" ==> PathAliases(alias, entries, baseUrl, join)[k] == alias[k]
    decreases |entries|
  {
    if entries != [] {
      PathAliasesKeepTruthy(AddPathAlias(alias, entries[0], baseUrl, join), entries[1..], baseUrl, join);
    }
  }

  /** Every alias the merge holds is either one it started from, or the
      contribution of some `paths` entry. */
  lemma {:induction false} PathAliasesOrigin(alias: map<string, string>, entries: seq<PathEntry>,
                                             baseUrl: string, join: (string, string) -> string)
    ensures var r := PathAliases(alias, entries, baseUrl, join);
            forall k :: k in r ==>
              (k in alias && r[k] == alias[k]) ||
              (exists i :: 0 <= i < |entries| && Contribution(entries[i], baseUrl, join) == Some((k, r[k])))
    decreases |entries|
  {
    if entries != [] {
      var next := AddPathAlias(alias, entries[0], baseUrl, join);
      PathAliasesOrigin(next, entries[1..], baseUrl, join);
      var r := PathAliases(alias, entries, baseUrl, join);
      forall k | k in r
        ensures (k in alias && r[k] == alias[k]) ||
                (exists i :: 0 <= i < |entries| && Contribution(entries[i], baseUrl, join) == Some((k, r[k])))
      {
        if exists i :: 0 <= i < |entries[1..]| && Contribution(entries[1..][i], baseUrl, join) == Some((k, r[k])) {
          var i :| 0 <= i < |entries[1..]| && Contribution(entries[1..][i], baseUrl, join) == Some((k, r[k]));
          assert Contribution(entries[i + 1], baseUrl, join) == Some((k, r[k]));
        } else if k in alias && next[k] == alias[k] {
        } else {
          assert Contribution(entries[0], baseUrl, join) == Some((k, r[k]));
        }
      }
    }
  }

  /** No entry before the `i`-th contributes the key `k`. */
  predicate NoEarlierContribution(entries: seq<PathEntry>, baseUrl: string, join: (string, string) -> string,
                                  i: nat, k: string)
    requires i <= |entries|
  {
    forall j :: 0 <= j < i ==> (Contribution(entries[j], baseUrl, join).None?
                                || Contribution(entries[j], baseUrl, join).value.0 != k)
  }

  /** A key some `paths` entry contributes ends up in the table, unless it
      is inherited from `Object.prototype` and so already looks taken. */
  lemma {:induction false} ContributedKeyPresent(alias: map<string, string>, entries: seq<PathEntry>,
                                                 baseUrl: string, join: (string, string) -> string,
                                                 i: nat, k: string, v: string)
    requires i < |entries| && Contribution(entries[i], baseUrl, join) == Some((k, v))
    ensures k in PathAliases(alias, entries, baseUrl, join) || (k !in alias && k in ObjectPrototypeKeys)
    decreases |entries|
  {
    var next := AddPathAlias(alias, entries[0], baseUrl, join);
    assert alias.Keys <= next.Keys;
    if i == 0 {
      PathAliasesKeepTruthy(next, entries[1..], baseUrl, join);
    } else {
      assert entries[1..][i - 1] == entries[i];
      ContributedKeyPresent(next, entries[1..], baseUrl, join, i - 1, k, v);
    }
  }

  /** The first entry that contributes a key the table does not hold
      truthily sets it: with a non-empty converted path, that is the key's
      value after the merge. */
  lemma {:induction false} FirstContributionWins(alias: map<string, string>, entries: seq<PathEntry>,
                                                 baseUrl: string, join: (string, string) -> string,
                                                 i: nat, k: string, v: string)
    requires i < |entries| && Contribution(entries[i], baseUrl, join) == Some((k, v)) && v != ""
    requires !HasAlias(alias, k)
    requires NoEarlierContribution(entries, baseUrl, join, i, k)
    ensures var r := PathAliases(alias, entries, baseUrl, join);
            k in r && r[k] == v
    decreases |entries|
  {
    var next := AddPathAlias(alias, entries[0], baseUrl, join);
    if i == 0 {
      assert next[k] == v;
      PathAliasesKeepTruthy(next, entries[1..], baseUrl, join);
    } else {
      forall j | 0 <= j < i - 1
        ensures Contribution(entries[1..][j], baseUrl, join).None?
                || Contribution(entries[1..][j], baseUrl, join).value.0 != k
      {
        assert entries[1..][j] == entries[j + 1];
      }
      assert entries[1..][i - 1] == entries[i];
      FirstContributionWins(next, entries[1..], baseUrl, join, i - 1, k, v);
    }
  }

  /** What `paths` add to the merge: the key of every usable entry is in
      the result unless inherited from `Object.prototype`; and when the user
      aliases (with the hot client) hold no truthy value for it, the first
      entry that contributes it, with a non-empty path, sets its value. */
  lemma MergedAliasesAddPaths(user: map<string, string>, hot: bool, hotClientPath: string,
                              options: CompilerOptions, join: (string, string) -> string,
                              i: nat, k: string, v: string)
    requires options.paths.Some? && Truthy(options.baseUrl)
    requires i < |options.paths.value|
    requires Contribution(options.paths.value[i], options.baseUrl.value, join) == Some((k, v))
    ensures var r := MergedAliases(user, hot, hotClientPath, options, join);
            var base := BaseAliases(user, hot, hotClientPath);
            (k in r || (k !in base && k in ObjectPrototypeKeys))
            && (v != "" && !HasAlias(base, k)
                && NoEarlierContribution(options.paths.value, options.baseUrl.value, join, i, k)
                ==> k in r && r[k] == v)
  {
    var base := BaseAliases(user, hot, hotClientPath);
    var entries := options.paths.value;
    var baseUrl := options.baseUrl.value;
    ContributedKeyPresent(base, entries, baseUrl, join, i, k, v);
    if v != "" && !HasAlias(base, k) && NoEarlierContribution(entries, baseUrl, join, i, k) {
      FirstContributionWins(base, entries, baseUrl, join, i, k, v);
    }
  }

  /** User-defined aliases with a value survive the merge unchanged, and so
      does the hot client entry; without usable `paths` the result is exactly
      the user aliases (plus the hot client). */
  lemma UserAliasesWin(user: map<string, string>, hot: bool, hotClientPath: string,
                       options: CompilerOptions, join: (string, string) -> string)
    ensures var r := MergedAliases(user, hot, hotClientPath, options, join);
            (forall k :: k in user && user[k] != "" && (!hot || k != HotClientModule) ==> k in r && r[k] == user[k]) &&
            (hot && hotClientPath != "" ==> HotClientModule in r && r[HotClientModule] == hotClientPath)
  {
    var alias := BaseAliases(user, hot, hotClientPath);
    if options.paths.Some? && Truthy(options.baseUrl) {
      PathAliasesKeepTruthy(alias, options.paths.value, options.baseUrl.value, join);
    }
  }

  /** The lookup folders for non-relative imports, as a value: the converted
      `*` values without duplicates, in first-occurrence order, then
      `node_modules` unless already present. */
  function AddUnique(s: seq<string>, x: string): (r: seq<string>)
    ensures forall y :: y in r <==> y in s || y == x
    ensures |r| > 0 && r[0] == (if |s| > 0 then s[0] else x)
    ensures NoDuplicates(s) ==> NoDuplicates(r)
  {
    if x in s then s else s + [x]
  }

  predicate NoDuplicates(s: seq<string>) {
    forall i, j :: 0 <= i < j < |s| ==> s[i] != s[j]
  }

  /** The elements of `s`, each once, in first-occurrence order: what
      filling a JavaScript `Set` and reading it back gives. */
  function Distinct(s: seq<string>): (r: seq<string>)
    decreases |s|
  {
    if s == [] then [] else AddUnique(Distinct(s[..|s| - 1]), s[|s| - 1])
  }

  /** The index of the first occurrence of `x` in `s`. */
  function FirstIndex(s: seq<string>, x: string): (r: nat)
    requires x in s
    ensures r < |s| && s[r] == x
    ensures forall k :: 0 <= k < r ==> s[k] != x
    decreases |s|
  {
    if s[0] == x then 0 else 1 + FirstIndex(s[1..], x)
  }

  /** `Distinct` keeps first-occurrence order: an element listed earlier
      first occurs earlier in `s`. */
  lemma {:induction false} DistinctOrder(s: seq<string>)
    ensures forall x :: x in Distinct(s) ==> x in s
    ensures forall i, j :: 0 <= i < j < |Distinct(s)| ==>
              FirstIndex(s, Distinct(s)[i]) < FirstIndex(s, Distinct(s)[j])
    decreases |s|
  {
    if s != [] {
      var init := s[..|s| - 1];
      var last := s[|s| - 1];
      DistinctOrder(init);
      DistinctProperties(init);
      var d := Distinct(init);
      assert forall x :: x in init ==> FirstIndex(s, x) == FirstIndex(init, x) by {
        forall x | x in init ensures FirstIndex(s, x) == FirstIndex(init, x) {
          var a := FirstIndex(init, x);
          assert s[a] == x;
          var b := FirstIndex(s, x);
          assert b <= a;
          assert init[b] == x;
        }
      }
      if last !in d {
        assert last !in init;
        assert FirstIndex(s, last) == |s| - 1;
        assert Distinct(s) == d + [last];
      }
    }
  }

  lemma {:induction false} DistinctProperties(s: seq<string>)
    ensures NoDuplicates(Distinct(s))
    ensures forall x :: x in Distinct(s) <==> x in s
    ensures |s| > 0 ==> |Distinct(s)| > 0 && Distinct(s)[0] == s[0]
    decreases |s|
  {
    if s != [] {
      DistinctProperties(s[..|s| - 1]);
      var init := s[..|s| - 1];
      assert s == init + [s[|s| - 1]];
      forall x ensures x in s <==> x in init || x == s[|s| - 1] {
      }
      if |init| > 0 {
        assert init[0] == s[0];
      }
    }
  }

  /** Each `*` value joined to `baseUrl` and trimmed. */
  function ConvertAll(join: (string, string) -> string, baseUrl: string, values: seq<string>)
    : (r: seq<string>)
    ensures |r| == |values|
    ensures forall i :: 0 <= i < |values| ==> r[i] == ConvertAliasPath(join, baseUrl, values[i])
  {
    seq(|values|, i requires 0 <= i < |values| => ConvertAliasPath(join, baseUrl, values[i]))
  }

  /** The module folders, as a value: the distinct converted values, then
      `node_modules` unless already there. The result has no duplicates,
      holds exactly the converted values and `node_modules`, and starts with
      the first converted value. */
  function WildcardModules(join: (string, string) -> string, baseUrl: string, values: seq<string>)
    : (r: seq<string>)
    requires |values| > 0
    ensures NoDuplicates(r)
    ensures forall x :: x in r <==> x == "node_modules" || x in ConvertAll(join, baseUrl, values)
    ensures |r| > 0 && r[0] == ConvertAliasPath(join, baseUrl, values[0])
    ensures "node_modules" !in ConvertAll(join, baseUrl, values) ==> r[|r| - 1] == "node_modules"
    ensures var converted := ConvertAll(join, baseUrl, values);
            forall i, j :: 0 <= i < j < |r| && r[i] in converted && r[j] in converted ==>
              FirstIndex(converted, r[i]) < FirstIndex(converted, r[j])
  {
    DistinctProperties(ConvertAll(join, baseUrl, values));
    DistinctOrder(ConvertAll(join, baseUrl, values));
    AddUnique(Distinct(ConvertAll(join, baseUrl, values)), "node_modules")
  }

  /** `paths['*']`: the values of the first `*` entry, if any. */
  function WildcardValues(entries: seq<PathEntry>): (r: Option<seq<string>>)
    ensures r.None? <==> forall i :: 0 <= i < |entries| ==> entries[i].key != "*"
    decreases |entries|
  {
    if entries == [] then None
    else if entries[0].key == "*" then Some(entries[0].values)
    else WildcardValues(entries[1..])
  }

  /** The webpack devtool. */
  datatype DevTool = NoDevTool | SourceMap | EvalSourceMap

  /** The webpack rules, by kind, and the TypeScript rule's loaders. */
  datatype Rule = TypeScriptRule(loaders: seq<Loader>) | VueRule | TemplatesRule | CssRule | JsBabelRule
  datatype Loader = BabelLoader | TypeScriptLoader(options: CompilerOptions)

  /** `this.outputPublicPath`: the hot server's `/js/` URL in hot mode, else `js/`. */
  function OutputPublicPath(hot: bool, port1: nat): (r: string)
    ensures EndsWith(r, "js/")
    ensures hot ==> StartsWith(r, "http://localhost:")
    ensures !hot ==> r == "js/"
  {
    if hot then "http://localhost:" + NatToString(port1) + "/js/" else "js/"
  }

  /** The hot-mode public path names the port it was built from. */
  lemma OutputPublicPathPort(port1: nat)
    ensures var r := OutputPublicPath(true, port1);
            var digits := r[|"http://localhost:"|..|r| - |"/js/"|];
            (forall i :: 0 <= i < |digits| ==> IsDigit(digits[i])) && ParseNat(digits) == port1
  {
    var r := OutputPublicPath(true, port1);
    assert r[|"http://localhost:"|..|r| - |"/js/"|] == NatToString(port1);
    ParseNatToString(port1);
  }

  class TypeScriptBuildEngine {
    const variables: Variables
    const outputPublicPath: string
    const typescriptCompilerOptions: CompilerOptions
    const useBabel: bool
    /** The wormhole files already written. */
    var wormholes: set<string>

    /** `parsed` is what the tsconfig parser gives for the project. */
    constructor (variables: Variables, useBabel: bool, parsed: CompilerOptions)
      ensures this.variables == variables && this.useBabel == useBabel
      ensures outputPublicPath == OutputPublicPath(variables.hot, variables.port1)
      ensures typescriptCompilerOptions == parsed.(noEmit := false, sourceMap := variables.sourceMap,
                                                   inlineSources := variables.sourceMap)
      ensures wormholes == {}
    {
      this.variables := variables;
      if variables.hot {
        outputPublicPath := "http://localhost:" + NatToString(variables.port1) + "/js/";
      } else {
        outputPublicPath := "js/";
      }
      var options := parsed.(noEmit := false);
      options := options.(sourceMap := variables.sourceMap);
      options := options.(inlineSources := variables.sourceMap);
      typescriptCompilerOptions := options;
      this.useBabel := useBabel;
      wormholes := {};
    }

    /** `mergeTypeScriptPathAlias`: copies the user aliases, adds the hot
        client, then walks `paths`. `hotClientPath` is what
        `require.resolve('webpack-hot-client/client')` gives. */
    method MergeTypeScriptPathAlias(hotClientPath: string, join: (string, string) -> string)
      returns (alias: map<string, string>)
      ensures alias == MergedAliases(variables.alias, variables.hot, hotClientPath,
                                     typescriptCompilerOptions, join)
    {
      alias := variables.alias;
      if variables.hot {
        alias := alias[HotClientModule := hotClientPath];
      }
      if typescriptCompilerOptions.paths.None? {
        return;
      }
      if !Truthy(typescriptCompilerOptions.baseUrl) {
        return;
      }
      var baseUrl := typescriptCompilerOptions.baseUrl.value;
      var entries := typescriptCompilerOptions.paths.value;
      ghost var start := alias;
      var i := 0;
      while i < |entries|
        invariant 0 <= i <= |entries|
        invariant PathAliases(start, entries, baseUrl, join) == PathAliases(alias, entries[i..], baseUrl, join)
      {
        var key := entries[i].key;
        var values := entries[i].values;
        assert entries[i..][1..] == entries[i + 1..];
        if key == "*" {
          i := i + 1;
          continue;
        }
        if |values| == 0 || values[0] == "" {
          i := i + 1;
          continue;
        }
        var value := values[0];
        if EndsWith(key, "/*") {
          key := key[..|key| - 2];
        }
        var result := ConvertAliasPath(join, baseUrl, value);
        if !HasAlias(alias, key) {
          alias := alias[key := result];
        }
        i := i + 1;
      }
    }

    /** `getWildcardModules`: `None` unless `baseUrl`, `paths` and a
        non-empty first `*` value all exist. */
    method GetWildcardModules(join: (string, string) -> string) returns (r: Option<seq<string>>)
      ensures var options := typescriptCompilerOptions;
              r.Some? <==> Truthy(options.baseUrl) && options.paths.Some?
                           && WildcardValues(options.paths.value).Some?
                           && |WildcardValues(options.paths.value).value| > 0
                           && WildcardValues(options.paths.value).value[0] != ""
      ensures r.Some? ==> r.value == WildcardModules(join, typescriptCompilerOptions.baseUrl.value,
                                                     WildcardValues(typescriptCompilerOptions.paths.value).value)
    {
      var options := typescriptCompilerOptions;
      if !Truthy(options.baseUrl) {
        return None;
      }
      if options.paths.None? {
        return None;
      }
      var wildcards := WildcardValues(options.paths.value);
      if wildcards.None? {
        return None;
      }
      if |wildcards.value| == 0 || wildcards.value[0] == "" {
        return None;
      }
      var baseUrl := options.baseUrl.value;
      var values := wildcards.value;
      var found: seq<string> := [];
      var i := 0;
      while i < |values|
        invariant 0 <= i <= |values|
        invariant found == Distinct(ConvertAll(join, baseUrl, values)[..i])
      {
        var result := ConvertAliasPath(join, baseUrl, values[i]);
        assert ConvertAll(join, baseUrl, values)[..i + 1][..i] == ConvertAll(join, baseUrl, values)[..i];
        found := AddUnique(found, result);
        i := i + 1;
      }
      assert ConvertAll(join, baseUrl, values)[..i] == ConvertAll(join, baseUrl, values);
      found := AddUnique(found, "node_modules");
      r := Some(found);
    }

    /** `webpackConfigurationDevTool`. */
    function WebpackConfigurationDevTool(): (r: DevTool)
      ensures r == NoDevTool <==> !variables.sourceMap
      ensures r == EvalSourceMap <==> variables.sourceMap && !variables.production && variables.watch
    {
      if variables.sourceMap == false then NoDevTool
      else if variables.production then SourceMap
      else if variables.watch == false then SourceMap
      else EvalSourceMap
    }

    /** `typescriptWebpackRules`: babel (in babel mode) runs after the
        TypeScript loader, so it is listed first. */
    function TypescriptWebpackRules(): (r: Rule)
      ensures r.TypeScriptRule? && |r.loaders| > 0
      ensures r.loaders[|r.loaders| - 1] == TypeScriptLoader(typescriptCompilerOptions)
      ensures BabelLoader in r.loaders <==> useBabel
    {
      TypeScriptRule((if useBabel then [BabelLoader] else []) + [TypeScriptLoader(typescriptCompilerOptions)])
    }

    /** `createWebpackRules`. */
    function CreateWebpackRules(): (r: seq<Rule>)
      ensures |r| == if useBabel then 5 else 4
      ensures r[0] == TypescriptWebpackRules() && r[1] == VueRule && r[2] == TemplatesRule && r[3] == CssRule
      ensures JsBabelRule in r <==> useBabel
    {
      [TypescriptWebpackRules(), VueRule, TemplatesRule, CssRule] + (if useBabel then [JsBabelRule] else [])
    }

    /** `putWormholes`: for each listed chunk file that is not a hot update
        and not already written, a wormhole write is started; a file joins
        `wormholes` once its write succeeds. `None` stands for a missing
        list. `succeeds` tells which writes succeed. Since the set is
        updated only when a write completes, a name listed twice is written
        twice. */
    method PutWormholes(fileNames: Option<seq<string>>, succeeds: string -> bool)
      returns (written: seq<string>)
      modifies this`wormholes
      ensures fileNames.None? ==> written == [] && wormholes == old(wormholes)
      ensures fileNames.Some? ==> written == WormholeWrites(fileNames.value, old(wormholes))
      ensures wormholes == old(wormholes) + set f | f in written && succeeds(f)
    {
      written := [];
      if fileNames.None? {
        return;
      }
      var files := fileNames.value;
      var i := 0;
      while i < |files|
        invariant 0 <= i <= |files|
        invariant written == WormholeWrites(files[..i], old(wormholes))
        invariant wormholes == old(wormholes)
      {
        var file := files[i];
        assert files[..i + 1] == files[..i] + [file];
        WormholeWritesAppend(files[..i], [file], old(wormholes));
        i := i + 1;
        if Contains(file, ".hot-update.js") {
          continue;
        }
        if file in wormholes {
          continue;
        }
        written := written + [file];
      }
      assert files[..i] == files;
      // the writes complete after the loop: each success adds its name
      wormholes := wormholes + set f | f in written && succeeds(f);
    }
  }

  /** The wormhole writes `putWormholes` starts for `files`, given the names
      already written. */
  function WormholeWrites(files: seq<string>, wormholes: set<string>): (r: seq<string>)
    decreases |files|
  {
    if files == [] then []
    else (if Contains(files[0], ".hot-update.js") || files[0] in wormholes then [] else [files[0]])
         + WormholeWrites(files[1..], wormholes)
  }

  lemma {:induction false} WormholeWritesAppend(a: seq<string>, b: seq<string>, wormholes: set<string>)
    ensures WormholeWrites(a + b, wormholes) == WormholeWrites(a, wormholes) + WormholeWrites(b, wormholes)
    decreases |a|
  {
    if a == [] {
      assert a + b == b;
    } else {
      assert (a + b)[0] == a[0];
      assert (a + b)[1..] == a[1..] + b;
      WormholeWritesAppend(a[1..], b, wormholes);
    }
  }

  /** No hot-update file and no already-written name is ever written; every
      other listed name is. */
  lemma {:induction false} WormholeWritesFilter(files: seq<string>, wormholes: set<string>)
    ensures forall f :: f in WormholeWrites(files, wormholes) <==>
              f in files && !Contains(f, ".hot-update.js") && f !in wormholes
    decreases |files|
  {
    if files != [] {
      WormholeWritesFilter(files[1..], wormholes);
    }
  }
}
