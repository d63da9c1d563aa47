# Webpack configuration builder, modelled in Dafny

`ConfigBuilder` (app/templates/webpack.config-builder.js) is a fluent builder for a
webpack configuration. A fresh builder holds five things: the static resources path,
an output flag, a file-naming template, the loader used for stylesheets, and the
configuration record being filled in.
Each chained call either sets one field or appends to an ordered list. These lists are
`config.plugins` and `config.module.preLoaders`. Each chained call returns the builder
itself. `build()` then computes the derived parts and returns the record:

- the output block (when output is on);
- the HTML-shell plugin and the stylesheet-extraction plugin (when output is on);
- the fixed list of three loader rules (always).

The project has three modules, one per file:

- `ConfigModel` (config_model.dfy) has the values of the record as datatypes. Third-party
  plugins are tags that carry their literal arguments, and regular expressions are kept
  by their source text. It also has the builder's value `BuilderState` and a `Call` per
  public method. `Step` gives the effect of one call and `Run` the effect of a sequence
  of calls. `ComputeLoaders` is the pure `computeLoaders`.
- `ConfigProperties` (config_properties.dfy) has the lemmas about those functions:
  - what any sequence of calls does to each field;
  - what `build()` adds, with output on and with output off;
  - how the naming template reaches the output block and the extraction plugin;
  - that `build()` is not idempotent.
- `Builder` (config_builder.dfy) has the imperative model. `ConfigBuilder` is a class with
  the source's mutable fields. The record is a separate object, `WebpackConfig`, because
  `build()` returns that same object and not a copy. A ghost `history` holds the calls
  made so far. `Valid()` says the object equals `Run` of that history applied to a fresh
  builder. Each of the nine public methods gets a frame of exactly the fields it writes
  and `ensures Snapshot() == Step(old(Snapshot()), call)`. So every lemma about `Run`
  applies to the object, and the frames say that nothing else changes. The three
  internal helpers `ComputeOutput`, `RenderHtml` and `HandleCss` are called only from
  `Build`. `ComputeOutput` ensures its new state is `WithOutputBlock` of the old one.
  `RenderHtml` and `HandleCss` state their effect field by field.

The functions `Initial` and `InitialConfig` (lines 16-44) are the functional
counterparts of the constructors. `Step` is the counterpart of the public methods,
`BuildStep` (lines 46-52) of `build`, and `WithOutputBlock` with `OutputBlock`
(lines 143-174) of `computeOutput`, `renderHtml` and `handleCss`. The rows of the
methods and lemmas below state their properties.

Two behaviours follow the code literally:

- The default template is `[name].bundle.js`, and `computeOutput` appends `.js` to it.
  So the default bundle name is `[name].bundle.js.js` and the default stylesheet is
  `[name].bundle.js.css` (`DefaultBuild`).
- `build()` is not idempotent. With output on, every call appends the HTML-shell and the
  extraction plugin once more (`BuildTwice`).

Two more consequences of the code:

- Every `build()` with output on appends the extraction plugin. Nothing else decides
  whether stylesheets are extracted.
- If output is turned off before the first `build()`, the stylesheet loader stays the
  placeholder `'null'` (`BuildAfterWithoutOutput`). A `build()` made while output was
  still on has already switched it to extraction, and turning output off afterwards
  does not switch it back.

Determinism needs no lemma: `Run` is a function, so the same call sequence always gives
the same record.

## Model

| member | source | states |
|---|---|---|
| Builder.ConfigBuilder.constructor | app/templates/webpack.config-builder.js:16-44 | A fresh builder has output on, template `[name].bundle.js` and stylesheet loader `'null'`. Its entry map, preloaders and plugins are empty. The dev server's content base is the static resources path, with stats `minimal`. |
| ConfigModel.ComputeLoaders | app/templates/webpack.config-builder.js:127-138 | Exactly three rules, in order: stylesheets with the given loader, then the image/font pattern with `file`, then html with `raw`. The three tests are distinct, so each kind of file has one rule. |
| Builder.WebpackConfig.constructor | app/templates/webpack.config-builder.js:22-44 | The record literal: empty entry map, preloaders and plugins; autoprefixer for `last 2 version`; the dev server; no loaders, no devtool and no output block yet. |
| Builder.ConfigBuilder.Build | app/templates/webpack.config-builder.js:46-52 | Returns the builder's own record object. With output on it writes the output block and appends Html then ExtractText. With output off it leaves the output block and plugins alone. In both cases it sets the loaders to `computeLoaders` of the current stylesheet loader. The new state is `Step(old, Build)`. |
| Builder.ConfigBuilder.WithoutOutput | app/templates/webpack.config-builder.js:54-57 | Clears only the output flag and returns the same instance. |
| Builder.ConfigBuilder.HashedOutput | app/templates/webpack.config-builder.js:59-62 | Sets only the template, to `[name].[hash]`, and returns the same instance. |
| Builder.ConfigBuilder.EntryPoint | app/templates/webpack.config-builder.js:64-67 | Sets only `entry.app` to the argument and returns the same instance. |
| Builder.ConfigBuilder.Devtool | app/templates/webpack.config-builder.js:69-72 | Sets only `devtool` to the argument and returns the same instance. |
| Builder.ConfigBuilder.Coverage | app/templates/webpack.config-builder.js:74-86 | Appends exactly one preloader: test `\.js$`, exclude `node_modules` and `\.spec\.js$`, loader `isparta-instrumenter`. Plugins are untouched. Returns the same instance. |
| Builder.ConfigBuilder.NoErrors | app/templates/webpack.config-builder.js:88-95 | Appends exactly NoErrorsPlugin to the plugins and returns the same instance. |
| Builder.ConfigBuilder.Minify | app/templates/webpack.config-builder.js:97-110 | Appends exactly Dedupe immediately followed by Uglify and returns the same instance. |
| Builder.ConfigBuilder.CopyStaticResources | app/templates/webpack.config-builder.js:112-121 | Appends exactly one Copy plugin from the static resources path and returns the same instance. |
| Builder.ConfigBuilder.ComputeOutput | app/templates/webpack.config-builder.js:143-152 | Output block from the template: path, public path `/`, and filename = chunk filename = template + `.js`. Then the effects of renderHtml and handleCss. |
| Builder.ConfigBuilder.RenderHtml | app/templates/webpack.config-builder.js:157-162 | Appends only Html(`./src/public/index.html`, `body`). |
| Builder.ConfigBuilder.HandleCss | app/templates/webpack.config-builder.js:167-174 | Sets the stylesheet loader to the `extract('style', 'css?sourceMap!postcss')` value and appends ExtractText(template + `.css`). |
| ConfigProperties.FixedPartsAfter | app/templates/webpack.config-builder.js:18-44 | No call ever changes the two paths, `postcss` or `devServer`. |
| ConfigProperties.OutputFlagAfter | app/templates/webpack.config-builder.js:54-57 | After any calls, output is on if and only if it was on and `withoutOutput()` was not among them. |
| ConfigProperties.FileNamesAfter | app/templates/webpack.config-builder.js:59-62 | After any calls, the template is `[name].[hash]` if `hashedOutput()` was among them, and unchanged otherwise. |
| ConfigProperties.PreLoadersAfter | app/templates/webpack.config-builder.js:74-86 | After any calls, including `build()`, the preloaders are the old ones followed by one isparta preloader per `coverage()` call. |
| ConfigProperties.PluginsAfterChain | app/templates/webpack.config-builder.js:88-121 | Chaining calls append exactly ChainPluginsOf(calls), in call order: one NoErrors per `noErrors()`, Dedupe then Uglify per `minify()`, and one Copy per `copyStaticResources()`. |
| ConfigProperties.ChainPluginsOfHasNoBuildPlugins | app/templates/webpack.config-builder.js:88-121 | No chaining call appends an Html or ExtractText plugin. |
| ConfigProperties.ChainKeepsBuildFields | app/templates/webpack.config-builder.js:46-52 | Without `build()`, the output block, the loader list and the stylesheet loader never change. |
| ConfigProperties.BuildLoaders | app/templates/webpack.config-builder.js:127-138 | After `build()` the loaders are exactly three rules, in this order: css with the extraction value (output on) or the current value (output off), then the asset pattern with `file`, then html with `raw`. |
| ConfigProperties.BuildWithOutput | app/templates/webpack.config-builder.js:143-174 | With output on, `build()` writes the output block from the template, switches the stylesheet loader to extraction, and appends Html then ExtractText(template + `.css`). Entry, preloaders, devtool, flag and template stay the same. |
| ConfigProperties.BuildWithoutOutputStep | app/templates/webpack.config-builder.js:46-52 | With output off, `build()` changes the loader list and nothing else. |
| ConfigProperties.BuildAfterWithoutOutput | app/templates/webpack.config-builder.js:46-57 | Take a fresh builder, call `withoutOutput()` before its first `build()`, then build. There is no output block. `build()` appends no plugin, so there is no Html or ExtractText plugin. The stylesheet loader stays `'null'`. |
| ConfigProperties.HashedBuild | app/templates/webpack.config-builder.js:143-174 | After `hashedOutput()` with output on, `build()` gives filename = chunk filename = `[name].[hash].js`, ending the plugins with Html then ExtractText(`[name].[hash].css`). |
| ConfigProperties.DefaultBuild | app/templates/webpack.config-builder.js:143-152 | Without `hashedOutput()` and with output on, `build()` gives `[name].bundle.js.js` and ExtractText(`[name].bundle.js.css`). |
| ConfigProperties.BuildTwice | app/templates/webpack.config-builder.js:46-52 | A second `build()` with output on appends Html and ExtractText again and changes nothing else. The second state differs from the first. |
| ConfigProperties.ProductionChain | app/templates/webpack.config-builder.js:46-110 | Take a fresh builder and run `entryPoint("src/app/app.js").hashedOutput().minify().build()`. The result has entry `{app: "src/app/app.js"}`, hashed output names, and plugins [Dedupe, Uglify, Html, ExtractText(`[name].[hash].css`)]. |

## Left out

- The webpack, HtmlWebpackPlugin, ExtractTextPlugin, CopyWebpackPlugin and autoprefixer objects are foreign library calls. Each is a datatype tag that carries the literal arguments it is built with.
- `ExtractTextPlugin.extract` returns an opaque value. It is the tag `ExtractCss("style", "css?sourceMap!postcss")`.
- `path.join(__dirname, ...)` depends on the filesystem. Its two results, the static resources path and the dist path, are constructor parameters taken as given strings.
- The `test` and `exclude` regular expressions are kept only by their source text. Matching is not modelled, so neither is the order in which webpack runs preloaders before loaders.
- `entryPoint` and `devtool` accept any JavaScript value. The model takes strings.
- The builder's properties and per-instance method closures are plain JavaScript properties that outside code could reassign. The model allows changes only through its methods, and `staticResourcesPath` is a constant.
- The helpers use the captured `that` while the public methods use `this`. The model assumes every method is called on the builder itself, where the two are the same object.
- `config.module` is its own object in the source. The model keeps its two lists, `preLoaders` and `loaders`, directly on the record.
- `ComputeOutput`, `RenderHtml` and `HandleCss` are closures in the source that outside code cannot reach. In the model they are ordinary methods without `requires Valid()`. They do not record a call, so calling one from outside `Build` leaves the builder outside `Valid()`.
- app/templates/src/app/app.js is Angular route wiring with no behaviour of its own and is not part of this model.
