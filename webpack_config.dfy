/**
 * The webpack configuration selector: a pure function of whether NODE_ENV is
 * "production", the `--env` string and the listing of node_modules. In
 * production it returns the browser and the server bundle configurations;
 * otherwise one development configuration, for hot-reloaded browser
 * rendering when the env string mentions "browser" and for server-side
 * rendering otherwise. Webpack's plugins are tags; the values of the
 * `./paths` module and of the rule builders are opaque constants.
 */
module WebpackConfig {
  import opened Js

  /** The webpack plugins the configuration instantiates, with their options. */
  datatype Plugin =
    | EnvironmentPlugin(keys: seq<string>)
    | IgnorePlugin(pattern: string)
    | BannerPlugin(raw: bool, banner: string)
    | HotModuleReplacementPlugin
    | NoEmitOnErrorsPlugin
    | OccurrenceOrderPlugin
    | UglifyJsPlugin(compressWarnings: bool)
    | ExtractTextPlugin(filename: string, allChunks: bool)

  /** The entries of the `./paths` module the configuration refers to. */
  datatype PathRef = AppDir | ModulesDir | CompiledDir | PublicDir | AssetsDir

  /** The results of the rule builders in `./rules`, by the options passed to them. */
  datatype Rule = JavascriptRule(production: bool, browser: bool) | CssRule(production: bool, browser: bool) | ImageRule

  /** An entry point: one module path or a list of them. */
  datatype EntryPoint = Module(path: string) | Modules(paths: seq<string>)

  datatype Output = Output(
    path: PathRef,
    filename: string,
    chunkFilename: Option<string>,
    publicPath: PathRef,
    libraryTarget: Option<string>)

  /** The `node: { __dirname, __filename }` option. */
  datatype NodeOptions = NodeOptions(dirname: bool, filename: bool)

  datatype Resolve = Resolve(modules: seq<PathRef>, extensions: seq<string>)

  /** One webpack configuration object; absent keys are `None`. */
  datatype Config = Config(
    devtool: string,
    context: PathRef,
    entryName: string,
    entry: EntryPoint,
    target: Option<string>,
    node: NodeOptions,
    externals: Option<map<string, string>>,
    output: Output,
    rules: seq<Rule>,
    resolve: Resolve,
    plugins: seq<Plugin>)

  /** What the exported function returns: one configuration or a list of them. */
  datatype Configuration = Single(config: Config) | Multi(configs: seq<Config>)

  const BannerText := "require(\"source-map-support\").install();"
  const HotMiddlewareScript := "webpack-hot-middleware/client?path=/__webpack_hmr&timeout=20000&reload=true"

  /** `s[i..]` starts with `sub`. */
  predicate OccursAt(s: string, sub: string, i: int)
  {
    0 <= i && i + |sub| <= |s| && s[i..i + |sub|] == sub
  }

  ghost predicate Contains(s: string, sub: string)
  {
    exists i :: OccursAt(s, sub, i)
  }

  /** `s.indexOf(sub, from)`: the first position at or after `from` where `sub` occurs, or -1. */
  function IndexOfFrom(s: string, sub: string, from: nat): (r: int)
    requires from <= |s|
    ensures r == -1 || (from <= r && OccursAt(s, sub, r))
    ensures r != -1 ==> forall k :: from <= k < r ==> !OccursAt(s, sub, k)
    ensures r == -1 <==> forall k :: from <= k <= |s| ==> !OccursAt(s, sub, k)
    decreases |s| - from
  {
    if OccursAt(s, sub, from) then from
    else if from == |s| then -1
    else IndexOfFrom(s, sub, from + 1)
  }

  function IndexOf(s: string, sub: string): int
  {
    IndexOfFrom(s, sub, 0)
  }

  /** `env = ''`: `None` means the argument was omitted (`undefined`), the
    * only case in which JavaScript applies the default. A `null` env, on which
    * `env.indexOf` would throw, is not modelled. */
  function EnvOrDefault(env: Option<string>): string
  {
    match env
    case Some(e) => e
    case None => ""
  }

  function BrowserRender(env: Option<string>): bool
  {
    IndexOf(EnvOrDefault(env), "browser") >= 0
  }

  function IsProd(nodeEnv: Option<string>): bool
  {
    nodeEnv == Some("production")
  }

  /** The node_modules listing without `.bin`. */
  function WithoutBin(entries: seq<string>): (r: seq<string>)
    ensures forall x :: x in r <==> x in entries && x != ".bin"
  {
    if entries == [] then []
    else (if entries[0] == ".bin" then [] else [entries[0]]) + WithoutBin(entries[1..])
  }

  /** The `reduce` that adds `name: 'commonjs ' + name` for each name in turn. */
  function AssignAll(acc: map<string, string>, names: seq<string>): map<string, string>
    decreases names
  {
    if names == [] then acc
    else AssignAll(acc[names[0] := "commonjs " + names[0]], names[1..])
  }

  function Externals(entries: seq<string>): map<string, string>
  {
    AssignAll(map[], WithoutBin(entries))
  }

  /** The plugin list for each of the four (production, browser) cases. */
  function WebpackPlugins(production: bool, browser: bool): (r: seq<Plugin>)
    ensures EnvironmentPlugin(["NODE_ENV"]) in r
    ensures UglifyJsPlugin(false) in r <==> production
    ensures (exists q :: q in r && q.UglifyJsPlugin?) <==> production
    ensures HotModuleReplacementPlugin in r <==> !production && browser
    ensures BannerPlugin(true, BannerText) in r <==> !browser
    ensures IgnorePlugin("vertx") in r <==> !browser
  {
    if !production && !browser then
      [EnvironmentPlugin(["NODE_ENV"]), IgnorePlugin("vertx"), BannerPlugin(true, BannerText)]
    else if !production && browser then
      [HotModuleReplacementPlugin, NoEmitOnErrorsPlugin, EnvironmentPlugin(["NODE_ENV"])]
    else if production && !browser then
      [OccurrenceOrderPlugin, EnvironmentPlugin(["NODE_ENV"]), IgnorePlugin("vertx"), UglifyJsPlugin(false), BannerPlugin(true, BannerText)]
    else if production && browser then
      [ExtractTextPlugin("styles/main.css", true), UglifyJsPlugin(false), EnvironmentPlugin(["NODE_ENV"])]
    else
      assert false; []
  }

  const NodeGlobals := NodeOptions(true, true)
  const ResolveOptions := Resolve([AppDir, ModulesDir], [".js", ".jsx", ".css"])

  /** The rule list every configuration uses; the rules see `isProd`, not the bundle's own mode. */
  function Rules(isProd: bool, browser: bool): seq<Rule>
  {
    [JavascriptRule(isProd, browser), CssRule(isProd, browser), ImageRule]
  }

  function ProdServerRender(isProd: bool, externals: map<string, string>): Config
  {
    Config("source-map", AppDir, "server", Module("../server/index"), Some("node"), NodeGlobals, Some(externals),
      Output(CompiledDir, "[name].js", None, PublicDir, Some("commonjs2")),
      Rules(isProd, false), ResolveOptions, WebpackPlugins(true, false))
  }

  function ProdBrowserRender(isProd: bool): Config
  {
    Config("cheap-module-source-map", AppDir, "app", Modules(["./client"]), None, NodeGlobals, None,
      Output(AssetsDir, "[name].js", Some("[name].[chunkhash:6].js"), PublicDir, None),
      Rules(isProd, true), ResolveOptions, WebpackPlugins(true, true))
  }

  function DevBrowserRender(isProd: bool): Config
  {
    Config("eval", AppDir, "app", Modules(["./client", HotMiddlewareScript]), None, NodeGlobals, None,
      Output(AssetsDir, "[name].js", None, PublicDir, None),
      Rules(isProd, true), ResolveOptions, WebpackPlugins(false, true))
  }

  function DevServerRender(isProd: bool, externals: map<string, string>): Config
  {
    Config("sourcemap", AppDir, "server", Module("../server/index"), Some("node"), NodeGlobals, Some(externals),
      Output(CompiledDir, "[name].dev.js", None, PublicDir, Some("commonjs2")),
      Rules(isProd, false), ResolveOptions, WebpackPlugins(false, false))
  }

  /** The exported function, with `process.env.NODE_ENV` and the node_modules listing as parameters. */
  function Configure(nodeEnv: Option<string>, env: Option<string>, nodeModules: seq<string>): Configuration
  {
    var isProd := IsProd(nodeEnv);
    var browserRender := BrowserRender(env);
    var externals := Externals(nodeModules);
    var prodConfig := Multi([ProdBrowserRender(isProd), ProdServerRender(isProd, externals)]);
    var devConfig := Single(if browserRender then DevBrowserRender(isProd) else DevServerRender(isProd, externals));
    if isProd then prodConfig else devConfig
  }

  /** Browser rendering is chosen exactly when the env string contains "browser". */
  lemma BrowserRenderIffContains(env: Option<string>)
    ensures BrowserRender(env) <==> Contains(EnvOrDefault(env), "browser")
  {
  }

  /** With no env string, server rendering is chosen. */
  lemma DefaultEnvIsServerRender()
    ensures !BrowserRender(None)
  {
  }

  /** A string containing "browser" anywhere selects browser rendering. */
  lemma BrowserAnywhere(prefix: string, suffix: string)
    ensures BrowserRender(Some(prefix + "browser" + suffix))
  {
    var s := prefix + "browser" + suffix;
    assert s[|prefix|..|prefix| + 7] == "browser";
    assert OccursAt(s, "browser", |prefix|);
  }

  /** In production both bundles are built, browser first, whatever the env string. */
  lemma ProductionBuildsBoth(nodeEnv: Option<string>, env: Option<string>, nodeModules: seq<string>)
    requires nodeEnv == Some("production")
    ensures var c := Configure(nodeEnv, env, nodeModules);
      && c.Multi? && |c.configs| == 2
      && c.configs[0] == ProdBrowserRender(true)
      && c.configs[1] == ProdServerRender(true, Externals(nodeModules))
      && c == Configure(nodeEnv, None, nodeModules)
  {
  }

  /** Outside production one configuration is built, chosen by the env string. */
  lemma DevelopmentBuildsOne(nodeEnv: Option<string>, env: Option<string>, nodeModules: seq<string>)
    requires nodeEnv != Some("production")
    ensures Configure(nodeEnv, env, nodeModules) ==
      Single(if Contains(EnvOrDefault(env), "browser") then DevBrowserRender(false) else DevServerRender(false, Externals(nodeModules)))
  {
  }

  /** Every configuration the function returns loads NODE_ENV into the bundle,
    * and is minified exactly when NODE_ENV is "production". */
  lemma EveryConfigHasEnvironment(nodeEnv: Option<string>, env: Option<string>, nodeModules: seq<string>)
    ensures var c := Configure(nodeEnv, env, nodeModules);
      forall cfg :: (cfg in (if c.Multi? then c.configs else [c.config])) ==>
        EnvironmentPlugin(["NODE_ENV"]) in cfg.plugins && (UglifyJsPlugin(false) in cfg.plugins <==> IsProd(nodeEnv))
  {
  }

  /** Hot module replacement is only ever configured for development in the browser. */
  lemma HotReloadOnlyInDevBrowser(nodeEnv: Option<string>, env: Option<string>, nodeModules: seq<string>)
    ensures var c := Configure(nodeEnv, env, nodeModules);
      (c.Single? && HotModuleReplacementPlugin in c.config.plugins) <==> !IsProd(nodeEnv) && BrowserRender(env)
  {
  }

  /** Every returned configuration hands `isProd` to its rule builders, with
    * the browser flag set exactly for the bundles that do not target node. */
  lemma ProductionRulesSeeIsProd(nodeEnv: Option<string>, env: Option<string>, nodeModules: seq<string>)
    ensures var c := Configure(nodeEnv, env, nodeModules);
      forall cfg :: (cfg in (if c.Multi? then c.configs else [c.config])) ==>
        var browser := cfg.target != Some("node");
        cfg.rules == [JavascriptRule(IsProd(nodeEnv), browser), CssRule(IsProd(nodeEnv), browser), ImageRule]
  {
  }

  lemma {:induction false} AssignAllKeys(acc: map<string, string>, names: seq<string>, k: string)
    ensures k in AssignAll(acc, names) <==> k in acc || k in names
    decreases names
  {
    if names != [] {
      AssignAllKeys(acc[names[0] := "commonjs " + names[0]], names[1..], k);
      assert names == [names[0]] + names[1..];
    }
  }

  lemma {:induction false} AssignAllValues(acc: map<string, string>, names: seq<string>, k: string)
    requires forall j :: j in acc ==> acc[j] == "commonjs " + j
    requires k in AssignAll(acc, names)
    ensures AssignAll(acc, names)[k] == "commonjs " + k
    decreases names
  {
    if names != [] {
      AssignAllValues(acc[names[0] := "commonjs " + names[0]], names[1..], k);
    }
  }

  /** The externals map sends every listed module other than `.bin` to
    * `commonjs <name>`, and has no other keys. */
  lemma ExternalsExact(entries: seq<string>)
    ensures forall k :: k in Externals(entries) <==> k in entries && k != ".bin"
    ensures forall k :: k in Externals(entries) ==> Externals(entries)[k] == "commonjs " + k
  {
    forall k ensures k in Externals(entries) <==> k in entries && k != ".bin" {
      AssignAllKeys(map[], WithoutBin(entries), k);
    }
    forall k | k in Externals(entries) ensures Externals(entries)[k] == "commonjs " + k {
      AssignAllValues(map[], WithoutBin(entries), k);
    }
  }

  /** The two server bundles target node, carry the externals and build a
    * commonjs2 library; they differ in output file name. The development
    * browser bundle adds the hot-middleware client after `./client`. */
  lemma BundleShapes(isProd: bool, x: map<string, string>)
    ensures var ps, ds := ProdServerRender(isProd, x), DevServerRender(isProd, x);
      && ps.target == Some("node") && ds.target == Some("node")
      && ps.externals == Some(x) && ds.externals == Some(x)
      && ps.output.libraryTarget == Some("commonjs2") && ds.output.libraryTarget == Some("commonjs2")
      && ps.output.filename == "[name].js" && ds.output.filename == "[name].dev.js"
    ensures ProdBrowserRender(isProd).entry == Modules(["./client"])
    ensures DevBrowserRender(isProd).entry == Modules(["./client", HotMiddlewareScript])
    ensures ProdBrowserRender(isProd).target.None? && DevBrowserRender(isProd).target.None?
  {
  }
}
