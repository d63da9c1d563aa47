/** The fluent builder `ConfigBuilder` of app/templates/webpack.config-builder.js as an
    object with mutable fields. The record it assembles is an object of its own
    (WebpackConfig), because `build()` hands out that very object, not a copy. Each
    method is proved against Step of module ConfigModel through the invariant Valid(),
    which ties the object to the calls made on it so far. */
module Builder {
  import opened ConfigModel

  /** The configuration record the builder fills in; `preLoaders` and `loaders` are
      the two lists kept under `config.module`. */
  class WebpackConfig {
    var entry: map<string, string>
    var preLoaders: seq<PreLoader>
    var loaders: Option<seq<Loader>>
    var plugins: seq<Plugin>
    var postcss: seq<Autoprefixer>
    var devServer: DevServer
    var devtool: Option<string>
    var output: Option<Output>

    /** The record's current value. */
    function Value(): Config
      reads this
    {
      Config(entry, preLoaders, loaders, plugins, postcss, devServer, devtool, output)
    }

    /** The record literal of the builder's constructor. */
    constructor (contentBase: string)
      ensures Value() == InitialConfig(contentBase)
    {
      entry := map[];
      preLoaders := [];
      loaders := None;
      plugins := [];
      postcss := [Autoprefixer(["last 2 version"])];
      devServer := DevServer(contentBase, "minimal");
      devtool := None;
      output := None;
    }
  }

  class ConfigBuilder {
    const staticResourcesPath: string
    /** The directory `computeOutput` writes into. */
    const distPath: string
    var cssLoaderValue: LoaderValue
    var output: bool
    var fileNames: string
    const config: WebpackConfig
    /** The calls made on this builder so far, oldest first. */
    ghost var history: seq<Call>

    /** The builder's current value. */
    function Snapshot(): BuilderState
      reads this, config
    {
      BuilderState(staticResourcesPath, distPath, cssLoaderValue, output, fileNames, config.Value())
    }

    /** The builder is what its calls so far made of a fresh one. */
    ghost predicate Valid()
      reads this, config
    {
      Snapshot() == Run(Initial(staticResourcesPath, distPath), history)
    }

    /** A fresh builder: output on, the plain naming template, the placeholder
        stylesheet loader, and a record with no entry, preloader or plugin whose dev
        server serves the static resources. */
    constructor (staticResourcesPath: string, distPath: string)
      ensures Valid() && fresh(config) && history == []
      ensures this.staticResourcesPath == staticResourcesPath && this.distPath == distPath
      ensures output && fileNames == "[name].bundle.js" && cssLoaderValue == Named("null")
      ensures config.entry == map[] && config.preLoaders == [] && config.plugins == []
      ensures config.devServer == DevServer(staticResourcesPath, "minimal")
      ensures config.postcss == [Autoprefixer(["last 2 version"])]
      ensures config.loaders == None && config.devtool == None && config.output == None
    {
      this.staticResourcesPath := staticResourcesPath;
      this.distPath := distPath;
      cssLoaderValue := NullLoader;
      output := true;
      fileNames := DefaultFileNames;
      config := new WebpackConfig(staticResourcesPath);
      history := [];
    }

    /** `build()`: the output block when output is on, then the loader list; returns
        the record itself. */
    method Build() returns (r: WebpackConfig)
      requires Valid()
      modifies this`cssLoaderValue, this`history, config`output, config`plugins, config`loaders
      ensures Valid() && history == old(history) + [Call.Build]
      ensures Snapshot() == Step(old(Snapshot()), Call.Build)
      ensures r == config
      ensures old(output) ==> config.output == Some(OutputBlock(distPath, fileNames))
      ensures old(output) ==> config.plugins == old(config.plugins)
                                + [HtmlPlugin(IndexTemplate, "body"), ExtractTextPlugin(fileNames + ".css")]
      ensures !old(output) ==> config.output == old(config.output) && config.plugins == old(config.plugins)
      ensures config.loaders == Some(ComputeLoaders(cssLoaderValue))
    {
      if output {
        ComputeOutput();
      }
      config.loaders := Some(ComputeLoaders(cssLoaderValue));
      r := config;
      RunSnoc(Initial(staticResourcesPath, distPath), history, Call.Build);
      history := history + [Call.Build];
    }

    method WithoutOutput() returns (self: ConfigBuilder)
      requires Valid()
      modifies this`output, this`history
      ensures Valid() && history == old(history) + [Call.WithoutOutput]
      ensures Snapshot() == Step(old(Snapshot()), Call.WithoutOutput)
      ensures self == this && !output
    {
      output := false;
      RunSnoc(Initial(staticResourcesPath, distPath), history, Call.WithoutOutput);
      history := history + [Call.WithoutOutput];
      self := this;
    }

    method HashedOutput() returns (self: ConfigBuilder)
      requires Valid()
      modifies this`fileNames, this`history
      ensures Valid() && history == old(history) + [Call.HashedOutput]
      ensures Snapshot() == Step(old(Snapshot()), Call.HashedOutput)
      ensures self == this && fileNames == "[name].[hash]"
    {
      fileNames := HashedFileNames;
      RunSnoc(Initial(staticResourcesPath, distPath), history, Call.HashedOutput);
      history := history + [Call.HashedOutput];
      self := this;
    }

    method EntryPoint(entry: string) returns (self: ConfigBuilder)
      requires Valid()
      modifies this`history, config`entry
      ensures Valid() && history == old(history) + [Call.EntryPoint(entry)]
      ensures Snapshot() == Step(old(Snapshot()), Call.EntryPoint(entry))
      ensures self == this && config.entry == old(config.entry)["app" := entry]
    {
      config.entry := config.entry["app" := entry];
      RunSnoc(Initial(staticResourcesPath, distPath), history, Call.EntryPoint(entry));
      history := history + [Call.EntryPoint(entry)];
      self := this;
    }

    method Devtool(devtool: string) returns (self: ConfigBuilder)
      requires Valid()
      modifies this`history, config`devtool
      ensures Valid() && history == old(history) + [Call.Devtool(devtool)]
      ensures Snapshot() == Step(old(Snapshot()), Call.Devtool(devtool))
      ensures self == this && config.devtool == Some(devtool)
    {
      config.devtool := Some(devtool);
      RunSnoc(Initial(staticResourcesPath, distPath), history, Call.Devtool(devtool));
      history := history + [Call.Devtool(devtool)];
      self := this;
    }

    /** Appends the coverage instrumentation preloader. */
    method Coverage() returns (self: ConfigBuilder)
      requires Valid()
      modifies this`history, config`preLoaders
      ensures Valid() && history == old(history) + [Call.Coverage]
      ensures Snapshot() == Step(old(Snapshot()), Call.Coverage)
      ensures self == this
      ensures config.preLoaders == old(config.preLoaders)
                                   + [PreLoader(Regex(@"\.js$"), [Regex("node_modules"), Regex(@"\.spec\.js$")],
                                                "isparta-instrumenter")]
    {
      config.preLoaders := config.preLoaders + [IspartaPreLoader];
      RunSnoc(Initial(staticResourcesPath, distPath), history, Call.Coverage);
      history := history + [Call.Coverage];
      self := this;
    }

    method NoErrors() returns (self: ConfigBuilder)
      requires Valid()
      modifies this`history, config`plugins
      ensures Valid() && history == old(history) + [Call.NoErrors]
      ensures Snapshot() == Step(old(Snapshot()), Call.NoErrors)
      ensures self == this && config.plugins == old(config.plugins) + [NoErrorsPlugin]
    {
      config.plugins := config.plugins + [NoErrorsPlugin];
      RunSnoc(Initial(staticResourcesPath, distPath), history, Call.NoErrors);
      history := history + [Call.NoErrors];
      self := this;
    }

    /** Appends deduplication, then minification. */
    method Minify() returns (self: ConfigBuilder)
      requires Valid()
      modifies this`history, config`plugins
      ensures Valid() && history == old(history) + [Call.Minify]
      ensures Snapshot() == Step(old(Snapshot()), Call.Minify)
      ensures self == this && config.plugins == old(config.plugins) + [DedupePlugin, UglifyJsPlugin]
    {
      config.plugins := config.plugins + [DedupePlugin, UglifyJsPlugin];
      RunSnoc(Initial(staticResourcesPath, distPath), history, Call.Minify);
      history := history + [Call.Minify];
      self := this;
    }

    method CopyStaticResources() returns (self: ConfigBuilder)
      requires Valid()
      modifies this`history, config`plugins
      ensures Valid() && history == old(history) + [Call.CopyStaticResources]
      ensures Snapshot() == Step(old(Snapshot()), Call.CopyStaticResources)
      ensures self == this && config.plugins == old(config.plugins) + [CopyPlugin(staticResourcesPath)]
    {
      config.plugins := config.plugins + [CopyPlugin(staticResourcesPath)];
      RunSnoc(Initial(staticResourcesPath, distPath), history, Call.CopyStaticResources);
      history := history + [Call.CopyStaticResources];
      self := this;
    }

    /** `computeOutput`: writes the output block from the naming template, then
        renders the HTML shell and configures stylesheet extraction. Like the two
        helpers below it is internal to Build: it does not record a call in
        `history`, so only Build, which records one, keeps Valid(). */
    method ComputeOutput()
      modifies this`cssLoaderValue, config`output, config`plugins
      ensures Snapshot() == WithOutputBlock(old(Snapshot()))
    {
      config.output := Some(OutputBlock(distPath, fileNames));
      RenderHtml();
      HandleCss();
    }

    /** `renderHtml`: appends the HTML-shell plugin. Internal to ComputeOutput. */
    method RenderHtml()
      modifies config`plugins
      ensures config.plugins == old(config.plugins) + [HtmlPlugin("./src/public/index.html", "body")]
    {
      config.plugins := config.plugins + [HtmlPlugin(IndexTemplate, "body")];
    }

    /** `handleCss`: switches the stylesheet loader to extraction and appends the
        extraction plugin, named after the naming template. Internal to ComputeOutput. */
    method HandleCss()
      modifies this`cssLoaderValue, config`plugins
      ensures cssLoaderValue == ExtractCss("style", "css?sourceMap!postcss")
      ensures config.plugins == old(config.plugins) + [ExtractTextPlugin(fileNames + ".css")]
    {
      cssLoaderValue := ExtractCssValue;
      config.plugins := config.plugins + [ExtractTextPlugin(fileNames + ".css")];
    }
  }
}
