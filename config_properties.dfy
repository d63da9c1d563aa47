/** What sequences of builder calls do to the configuration: which fields a call
    can touch, what `build()` adds, and how the naming template reaches the output
    block. Everything here is about the functions of module ConfigModel. */
module ConfigProperties {
  import opened ConfigModel

  /** The plugins `noErrors()`, `minify()` and `copyStaticResources()` append, and no
      other chaining call: a reference description independent of Step. */
  function ChainPlugins(c: Call, staticResourcesPath: string): (r: seq<Plugin>) {
    match c
    case NoErrors => [NoErrorsPlugin]
    case Minify => [DedupePlugin, UglifyJsPlugin]
    case CopyStaticResources => [CopyPlugin(staticResourcesPath)]
    case _ => []
  }

  /** The plugins a list of chaining calls appends, call by call. */
  function ChainPluginsOf(calls: seq<Call>, staticResourcesPath: string): (r: seq<Plugin>)
    decreases |calls|
  {
    if calls == [] then []
    else ChainPluginsOf(calls[..|calls| - 1], staticResourcesPath)
         + ChainPlugins(calls[|calls| - 1], staticResourcesPath)
  }

  /** No chaining call appends an HTML-shell or a stylesheet-extraction plugin. */
  lemma {:induction false} ChainPluginsOfHasNoBuildPlugins(calls: seq<Call>, staticResourcesPath: string)
    ensures forall p :: p in ChainPluginsOf(calls, staticResourcesPath) ==>
              !p.HtmlPlugin? && !p.ExtractTextPlugin?
  {
    if calls != [] {
      ChainPluginsOfHasNoBuildPlugins(calls[..|calls| - 1], staticResourcesPath);
    }
  }

  /** The two paths, `postcss` and `devServer` are set once, by the constructor. */
  lemma {:induction false} FixedPartsAfter(s: BuilderState, calls: seq<Call>)
    ensures Run(s, calls).staticResourcesPath == s.staticResourcesPath
    ensures Run(s, calls).distPath == s.distPath
    ensures Run(s, calls).config.postcss == s.config.postcss
    ensures Run(s, calls).config.devServer == s.config.devServer
    decreases |calls|
  {
    if calls != [] {
      FixedPartsAfter(s, calls[..|calls| - 1]);
    }
  }

  /** Output stays on exactly until `withoutOutput()` is called; nothing turns it back on. */
  lemma {:induction false} OutputFlagAfter(s: BuilderState, calls: seq<Call>)
    ensures Run(s, calls).output <==> s.output && WithoutOutput !in calls
    decreases |calls|
  {
    if calls != [] {
      var init := calls[..|calls| - 1];
      assert calls == init + [calls[|calls| - 1]];
      OutputFlagAfter(s, init);
    }
  }

  /** The naming template is the hashed one exactly when `hashedOutput()` was called. */
  lemma {:induction false} FileNamesAfter(s: BuilderState, calls: seq<Call>)
    ensures Run(s, calls).fileNames == if HashedOutput in calls then HashedFileNames else s.fileNames
    decreases |calls|
  {
    if calls != [] {
      var init := calls[..|calls| - 1];
      assert calls == init + [calls[|calls| - 1]];
      FileNamesAfter(s, init);
    }
  }

  /** Every `coverage()` call appends one instrumentation preloader, and nothing else
      touches the preloader list, not even `build()`. */
  lemma {:induction false} PreLoadersAfter(s: BuilderState, calls: seq<Call>)
    ensures var pre := Run(s, calls).config.preLoaders;
      |pre| == |s.config.preLoaders| + multiset(calls)[Coverage] &&
      pre[..|s.config.preLoaders|] == s.config.preLoaders &&
      forall i :: |s.config.preLoaders| <= i < |pre| ==> pre[i] == IspartaPreLoader
    decreases |calls|
  {
    if calls != [] {
      var init := calls[..|calls| - 1];
      assert calls == init + [calls[|calls| - 1]];
      PreLoadersAfter(s, init);
    }
  }

  /** Chaining calls (anything but `build()`) append to the plugin list exactly the
      plugins of ChainPluginsOf, in call order. */
  lemma {:induction false} PluginsAfterChain(s: BuilderState, calls: seq<Call>)
    requires Build !in calls
    ensures Run(s, calls).config.plugins
            == s.config.plugins + ChainPluginsOf(calls, s.staticResourcesPath)
    decreases |calls|
  {
    if calls != [] {
      var init := calls[..|calls| - 1];
      assert calls == init + [calls[|calls| - 1]];
      PluginsAfterChain(s, init);
      FixedPartsAfter(s, init);
    }
  }

  /** Only `build()` writes the output block, the loader list and the stylesheet loader. */
  lemma {:induction false} ChainKeepsBuildFields(s: BuilderState, calls: seq<Call>)
    requires Build !in calls
    ensures Run(s, calls).config.output == s.config.output
    ensures Run(s, calls).config.loaders == s.config.loaders
    ensures Run(s, calls).cssLoaderValue == s.cssLoaderValue
    decreases |calls|
  {
    if calls != [] {
      var init := calls[..|calls| - 1];
      assert calls == init + [calls[|calls| - 1]];
      ChainKeepsBuildFields(s, init);
    }
  }

  /** Whatever was called before, `build()` leaves exactly three loader rules, in the
      order stylesheets, binary assets, HTML; the stylesheet rule is the extraction
      loader when output is on and the builder's current value otherwise. */
  lemma BuildLoaders(s: BuilderState)
    ensures Step(s, Build).config.loaders.Some?
    ensures var l := Step(s, Build).config.loaders.value;
      |l| == 3 &&
      l[0] == Loader(CssFiles, if s.output then ExtractCssValue else s.cssLoaderValue) &&
      l[1] == Loader(AssetFiles, Named("file")) &&
      l[2] == Loader(HtmlFiles, Named("raw"))
  {
  }

  /** With output on, `build()` writes the output block from the naming template,
      switches the stylesheet loader to extraction and appends the HTML-shell plugin
      followed by the extraction plugin; the rest of the record stays as it was. */
  lemma BuildWithOutput(s: BuilderState)
    requires s.output
    ensures var b := Step(s, Build);
      b.config.output == Some(Output(s.distPath, "/", s.fileNames + ".js", s.fileNames + ".js")) &&
      b.cssLoaderValue == ExtractCssValue &&
      b.config.plugins == s.config.plugins
                          + [HtmlPlugin("./src/public/index.html", "body"),
                             ExtractTextPlugin(s.fileNames + ".css")] &&
      b.config.entry == s.config.entry && b.config.preLoaders == s.config.preLoaders &&
      b.config.devtool == s.config.devtool && b.output == s.output && b.fileNames == s.fileNames
  {
  }

  /** With output off, `build()` only writes the loader list. */
  lemma BuildWithoutOutputStep(s: BuilderState)
    requires !s.output
    ensures Step(s, Build) == s.(config := s.config.(loaders := Step(s, Build).config.loaders))
  {
  }

  /** A fresh builder on which `withoutOutput()` was called before its first `build()`
      builds a record with no output block, no plugin added by `build()` (so neither the
      HTML-shell nor the extraction plugin) and the placeholder stylesheet loader. */
  lemma BuildAfterWithoutOutput(staticResourcesPath: string, distPath: string, calls: seq<Call>)
    requires WithoutOutput in calls && Build !in calls
    ensures var before := Run(Initial(staticResourcesPath, distPath), calls);
      var b := Step(before, Build);
      b.config.output == None &&
      b.config.plugins == before.config.plugins &&
      (forall p :: p in b.config.plugins ==> !p.HtmlPlugin? && !p.ExtractTextPlugin?) &&
      b.cssLoaderValue == Named("null") &&
      b.config.loaders == Some(ComputeLoaders(Named("null")))
  {
    var s0 := Initial(staticResourcesPath, distPath);
    OutputFlagAfter(s0, calls);
    ChainKeepsBuildFields(s0, calls);
    PluginsAfterChain(s0, calls);
    ChainPluginsOfHasNoBuildPlugins(calls, staticResourcesPath);
  }

  /** After `hashedOutput()`, with output on, `build()` names bundles and chunks
      `[name].[hash].js` and extracts stylesheets to `[name].[hash].css`, whatever the
      other calls were and in whatever order. */
  lemma HashedBuild(staticResourcesPath: string, distPath: string, calls: seq<Call>)
    requires HashedOutput in calls && WithoutOutput !in calls
    ensures var before := Run(Initial(staticResourcesPath, distPath), calls);
      var b := Step(before, Build);
      b.config.output == Some(Output(distPath, "/", "[name].[hash].js", "[name].[hash].js")) &&
      b.config.plugins == before.config.plugins
                          + [HtmlPlugin("./src/public/index.html", "body"),
                             ExtractTextPlugin("[name].[hash].css")]
  {
    var s0 := Initial(staticResourcesPath, distPath);
    OutputFlagAfter(s0, calls);
    FileNamesAfter(s0, calls);
    FixedPartsAfter(s0, calls);
    assert HashedFileNames + ".js" == "[name].[hash].js";
    assert HashedFileNames + ".css" == "[name].[hash].css";
  }

  /** Without `hashedOutput()` the default template is used, and `build()` appends
      `.js` to a template that already ends in `.js`: bundles are named
      `[name].bundle.js.js` and the stylesheet `[name].bundle.js.css`. */
  lemma DefaultBuild(staticResourcesPath: string, distPath: string, calls: seq<Call>)
    requires HashedOutput !in calls && WithoutOutput !in calls
    ensures var before := Run(Initial(staticResourcesPath, distPath), calls);
      var b := Step(before, Build);
      b.config.output == Some(Output(distPath, "/", "[name].bundle.js.js", "[name].bundle.js.js")) &&
      b.config.plugins == before.config.plugins
                          + [HtmlPlugin("./src/public/index.html", "body"),
                             ExtractTextPlugin("[name].bundle.js.css")]
  {
    var s0 := Initial(staticResourcesPath, distPath);
    OutputFlagAfter(s0, calls);
    FileNamesAfter(s0, calls);
    FixedPartsAfter(s0, calls);
    assert DefaultFileNames + ".js" == "[name].bundle.js.js";
    assert DefaultFileNames + ".css" == "[name].bundle.js.css";
  }

  /** `build()` is not idempotent: with output on, a second call appends the HTML-shell
      and the extraction plugin a second time, and leaves everything else as the first. */
  lemma BuildTwice(s: BuilderState)
    requires s.output
    ensures var once := Step(s, Build);
      var twice := Step(once, Build);
      twice.config.plugins == once.config.plugins
                              + [HtmlPlugin(IndexTemplate, "body"), ExtractTextPlugin(s.fileNames + ".css")] &&
      twice == once.(config := once.config.(plugins := twice.config.plugins)) &&
      twice != once
  {
  }

  /** The record built by the call chain
      `entryPoint("src/app/app.js").hashedOutput().minify().build()` on a fresh builder. */
  lemma ProductionChain(staticResourcesPath: string, distPath: string)
    ensures var c := Run(Initial(staticResourcesPath, distPath),
                         [EntryPoint("src/app/app.js"), HashedOutput, Minify, Build]).config;
      c.entry == map["app" := "src/app/app.js"] &&
      c.output == Some(Output(distPath, "/", "[name].[hash].js", "[name].[hash].js")) &&
      c.plugins == [DedupePlugin, UglifyJsPlugin, HtmlPlugin(IndexTemplate, "body"),
                    ExtractTextPlugin("[name].[hash].css")] &&
      c.preLoaders == [] &&
      c.devtool == None
  {
    var s0 := Initial(staticResourcesPath, distPath);
    var calls := [EntryPoint("src/app/app.js"), HashedOutput, Minify, Build];
    RunSnoc(s0, calls[..3], Build);
    RunSnoc(s0, calls[..2], Minify);
    RunSnoc(s0, calls[..1], HashedOutput);
    RunSnoc(s0, [], EntryPoint("src/app/app.js"));
    assert calls[..3] == calls[..2] + [Minify];
    assert calls[..2] == calls[..1] + [HashedOutput];
    assert calls[..1] == [] + [EntryPoint("src/app/app.js")];
    assert calls == calls[..3] + [Build];
    assert HashedFileNames + ".js" == "[name].[hash].js";
    assert HashedFileNames + ".css" == "[name].[hash].css";
  }
}
