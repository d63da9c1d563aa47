/** Values of the webpack configuration assembled by the configuration builder of
    app/templates/webpack.config-builder.js, and the effect of each builder call on
    the builder's state, as pure functions. The builder class in module Builder is
    proved against these functions. */
module ConfigModel {

  datatype Option<T> = None | Some(value: T)

  /** A regular expression literal of the configuration, kept by its source text.
      Only its identity matters here; it is never matched against anything. */
  datatype Regex = Regex(source: string)

  const JsFiles: Regex := Regex(@"\.js$")
  const NodeModules: Regex := Regex("node_modules")
  const SpecFiles: Regex := Regex(@"\.spec\.js$")
  const CssFiles: Regex := Regex(@"\.css$")
  const AssetFiles: Regex := Regex(@"\.(png|jpg|jpeg|gif|svg|woff|woff2|ttf|eot)$")
  const HtmlFiles: Regex := Regex(@"\.html$")

  /** The `loader` of a loader rule: a loader chain named by a string, or the value
      returned by `ExtractTextPlugin.extract(fallback, loaders)`. */
  datatype LoaderValue = Named(name: string) | ExtractCss(fallback: string, loaders: string)

  /** The placeholder stylesheet loader a fresh builder holds. */
  const NullLoader: LoaderValue := Named("null")
  /** What `handleCss` installs as the stylesheet loader. */
  const ExtractCssValue: LoaderValue := ExtractCss("style", "css?sourceMap!postcss")

  /** An entry of `config.module.loaders`. */
  datatype Loader = Loader(test: Regex, loader: LoaderValue)

  /** An entry of `config.module.preLoaders`. */
  datatype PreLoader = PreLoader(test: Regex, exclude: seq<Regex>, loader: string)

  /** The one preloader `coverage()` adds: instrument every script except
      dependencies and test files. */
  const IspartaPreLoader: PreLoader :=
    PreLoader(JsFiles, [NodeModules, SpecFiles], "isparta-instrumenter")

  /** The bundler plugins, each a tag holding the literal arguments it is built with. */
  datatype Plugin =
    | NoErrorsPlugin
    | DedupePlugin
    | UglifyJsPlugin
    | CopyPlugin(from: string)
    | HtmlPlugin(template: string, inject: string)
    | ExtractTextPlugin(filename: string)

  const IndexTemplate: string := "./src/public/index.html"

  /** `autoprefixer({browsers: ...})`. */
  datatype Autoprefixer = Autoprefixer(browsers: seq<string>)

  datatype DevServer = DevServer(contentBase: string, stats: string)

  /** The `config.output` block. */
  datatype Output = Output(path: string, publicPath: string, filename: string, chunkFilename: string)

  /** The value of the configuration record; `preLoaders` and `loaders` live under
      `config.module` in the record, and `None` stands for a property not set. */
  datatype Config = Config(
    entry: map<string, string>,
    preLoaders: seq<PreLoader>,
    loaders: Option<seq<Loader>>,
    plugins: seq<Plugin>,
    postcss: seq<Autoprefixer>,
    devServer: DevServer,
    devtool: Option<string>,
    output: Option<Output>)

  /** The value of a whole builder: its own fields and the record it assembles.
      `staticResourcesPath` and `distPath` are the two results of `path.join` the
      builder uses, taken as given strings. */
  datatype BuilderState = BuilderState(
    staticResourcesPath: string,
    distPath: string,
    cssLoaderValue: LoaderValue,
    output: bool,
    fileNames: string,
    config: Config)

  const DefaultFileNames: string := "[name].bundle.js"
  const HashedFileNames: string := "[name].[hash]"

  /** The record a fresh builder starts from. */
  function InitialConfig(staticResourcesPath: string): (c: Config) {
    Config(map[], [], None, [], [Autoprefixer(["last 2 version"])],
           DevServer(staticResourcesPath, "minimal"), None, None)
  }

  /** A fresh builder. */
  function Initial(staticResourcesPath: string, distPath: string): (s: BuilderState) {
    BuilderState(staticResourcesPath, distPath, NullLoader, true, DefaultFileNames,
                 InitialConfig(staticResourcesPath))
  }

  /** One call on the builder's public interface. */
  datatype Call =
    | WithoutOutput
    | HashedOutput
    | EntryPoint(entry: string)
    | Devtool(devtool: string)
    | Coverage
    | NoErrors
    | Minify
    | CopyStaticResources
    | Build

  /** `computeLoaders`: the fixed list of three loader rules, of which only the
      stylesheet rule depends on the builder (its `cssLoaderValue`). */
  function ComputeLoaders(cssLoaderValue: LoaderValue): (r: seq<Loader>)
    ensures |r| == 3
    ensures r[0].test == CssFiles && r[1].test == AssetFiles && r[2].test == HtmlFiles
    ensures r[0].test != r[1].test && r[1].test != r[2].test && r[0].test != r[2].test
    ensures r[0].loader == cssLoaderValue && r[1].loader == Named("file") && r[2].loader == Named("raw")
  {
    [Loader(CssFiles, cssLoaderValue), Loader(AssetFiles, Named("file")), Loader(HtmlFiles, Named("raw"))]
  }

  /** The output block `computeOutput` writes for the given naming template. */
  function OutputBlock(distPath: string, fileNames: string): (r: Output) {
    Output(distPath, "/", fileNames + ".js", fileNames + ".js")
  }

  /** `computeOutput` together with the `renderHtml` and `handleCss` it calls. */
  function WithOutputBlock(s: BuilderState): (r: BuilderState) {
    s.(cssLoaderValue := ExtractCssValue,
       config := s.config.(
         output := Some(OutputBlock(s.distPath, s.fileNames)),
         plugins := s.config.plugins
                    + [HtmlPlugin(IndexTemplate, "body"), ExtractTextPlugin(s.fileNames + ".css")]))
  }

  /** `build()`: the output block when output is on, then the loader list, always. */
  function BuildStep(s: BuilderState): (r: BuilderState) {
    var t := if s.output then WithOutputBlock(s) else s;
    t.(config := t.config.(loaders := Some(ComputeLoaders(t.cssLoaderValue))))
  }

  /** The effect of one call on the builder. */
  function Step(s: BuilderState, c: Call): (r: BuilderState) {
    match c
    case WithoutOutput => s.(output := false)
    case HashedOutput => s.(fileNames := HashedFileNames)
    case EntryPoint(e) => s.(config := s.config.(entry := s.config.entry["app" := e]))
    case Devtool(d) => s.(config := s.config.(devtool := Some(d)))
    case Coverage => s.(config := s.config.(preLoaders := s.config.preLoaders + [IspartaPreLoader]))
    case NoErrors => s.(config := s.config.(plugins := s.config.plugins + [NoErrorsPlugin]))
    case Minify => s.(config := s.config.(plugins := s.config.plugins + [DedupePlugin, UglifyJsPlugin]))
    case CopyStaticResources =>
      s.(config := s.config.(plugins := s.config.plugins + [CopyPlugin(s.staticResourcesPath)]))
    case Build => BuildStep(s)
  }

  /** The builder after the calls `calls`, made in order, starting from `s`. */
  function Run(s: BuilderState, calls: seq<Call>): (r: BuilderState)
    decreases |calls|
  {
    if calls == [] then s else Step(Run(s, calls[..|calls| - 1]), calls[|calls| - 1])
  }

  /** One more call extends a run by one step. */
  lemma RunSnoc(s: BuilderState, calls: seq<Call>, c: Call)
    ensures Run(s, calls + [c]) == Step(Run(s, calls), c)
  {
  }
}
