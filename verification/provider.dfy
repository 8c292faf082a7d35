/** The package's one export, `additionalDataProvider` (src/index.ts): it merges
    the caller's options over the defaults, refuses to start when the theme file
    is missing, and otherwise yields the per-file function that sass-loader calls
    for every stylesheet to get the prelude placed before that stylesheet. */
module Provider {
  import opened Strings
  import opened NodePath
  import opened ThemePath
  import opened SassMap

  /** A field of the options object: left out, or given by the caller. */
  datatype Field<T> = Omitted | Given(value: T) {
    function Or(default: T): T {
      match this
      case Omitted => default
      case Given(v) => v
    }
  }

  /** The `options` argument (src/types.ts): every field may be left out. */
  datatype ProviderOptions = ProviderOptions(
    themeName: Field<string>,
    cwd: Field<string>,
    themeOptions: Field<ThemeOptions>,
    includeAs: Field<string>)

  /** The options once the defaults are filled in. */
  datatype Settings = Settings(
    themeName: string,
    cwd: string,
    themeOptions: ThemeOptions,
    includeAs: string)

  /** The two fields of webpack's loader context that the generator reads. */
  datatype LoaderContext = LoaderContext(resourcePath: string, rootContext: string)

  /** The previous `additionalData` value that this one chains onto. */
  datatype Prev =
    | Absent
    | Literal(text: string)
    | Callable(f: (string, LoaderContext) -> string)

  /** What the factory closes over: the merged settings, the chained value and the
      platform's path functions. */
  datatype Provider = Provider(settings: Settings, prev: Prev, lib: PathLib)

  datatype Result<T> = Ok(value: T) | Err(message: string)

  const DefaultThemeName := "default"
  const DefaultIncludeAs := "*"

  /** `{ themeName: "default", cwd: process.cwd(), includeAs: "*", themeOptions: {}, ...options }` */
  function MergeOptions(options: ProviderOptions, processCwd: string): (s: Settings)
    ensures options.themeName.Given? ==> s.themeName == options.themeName.value
    ensures options.themeName.Omitted? ==> s.themeName == DefaultThemeName
    ensures options.cwd.Given? ==> s.cwd == options.cwd.value
    ensures options.cwd.Omitted? ==> s.cwd == processCwd
    ensures options.themeOptions.Given? ==> s.themeOptions == options.themeOptions.value
    ensures options.themeOptions.Omitted? ==> s.themeOptions == []
    ensures options.includeAs.Given? ==> s.includeAs == options.includeAs.value
    ensures options.includeAs.Omitted? ==> s.includeAs == DefaultIncludeAs
  {
    Settings(
      options.themeName.Or(DefaultThemeName),
      options.cwd.Or(processCwd),
      options.themeOptions.Or([]),
      options.includeAs.Or(DefaultIncludeAs))
  }

  /** The theme file whose existence the factory checks: `path.join(cwd, themeName + ".scss")`. */
  function ConfigFile(lib: PathLib, s: Settings): string {
    lib.join(s.cwd, s.themeName + ".scss")
  }

  /** `additionalDataProvider(options, prevAdditionalData)`; `fileExists` stands for
      `fs.existsSync` and `processCwd` for `process.cwd()`. A missing theme file is
      an error and no per-file function is produced. */
  function AdditionalDataProvider(options: ProviderOptions, prev: Prev, lib: PathLib,
                                  processCwd: string, fileExists: string -> bool): (r: Result<Provider>)
    ensures var configFile := ConfigFile(lib, MergeOptions(options, processCwd));
      && (r.Err? <==> !fileExists(configFile))
      && (r.Err? ==> r.message == configFile + " ungic theme file not exist")
    ensures r.Ok? ==>
      r.value.settings == MergeOptions(options, processCwd) && r.value.prev == prev && r.value.lib == lib
  {
    var settings := MergeOptions(options, processCwd);
    var configFile := ConfigFile(lib, settings);
    if !fileExists(configFile) then Err(configFile + " ungic theme file not exist")
    else Ok(Provider(settings, prev, lib))
  }

  // ----- the template -----

  function Blanks(n: nat): (s: string)
    ensures |s| == n && forall i :: 0 <= i < n ==> s[i] == ' '
  {
    seq(n, _ => ' ')
  }

  /** The indentation of every template line. */
  function Indent(): string {
    Blanks(8)
  }

  /** The aliased import of the theme file. */
  function UseThemeConfig(pathToTheme: string): string {
    "@use \"" + pathToTheme + "\" as ungic-theme-config;"
  }

  /** The merge of the theme's variables with the override map, passed second. */
  function MergeStatement(sassMap: string): string {
    "$ungic-theme-config: map.merge($ungic-theme-config, " + sassMap + ");"
  }

  /** The import of the shared theme module under the caller's alias. */
  function UseThemeModule(includeAs: string): string {
    "@use \"ungic-sass-theme\" as " + includeAs + " with ("
  }

  const RenderVars := "@include render-vars();"

  /** The literal text of the template between its interpolations. */
  function HeadOpening(): string {
    "\n" + Indent() + "@use \"sass:meta\";\n" + Indent() + "@use \"sass:map\";\n" + Indent()
  }

  function AfterThemeConfig(): string {
    Blanks(8) + "\n"
    + Indent() + "$ungic-theme-config: meta.module-variables(ungic-theme-config);\n"
    + "\n"
    + Indent()
  }

  function AfterMerge(): string {
    Blanks(3) + "\n" + Blanks(8) + "\n" + Indent()
  }

  function HeadClosing(): string {
    Blanks(22) + "\n"
    + Indent() + "    $theme: $ungic-theme-config\n"
    + Indent() + ");" + Blanks(2) + "\n"
    + Indent()
  }

  /** Everything the template puts before the stylesheet's content. */
  function TemplateHead(pathToTheme: string, sassMap: string, includeAs: string): string {
    HeadOpening() + UseThemeConfig(pathToTheme) + AfterThemeConfig() + MergeStatement(sassMap)
    + AfterMerge() + UseThemeModule(includeAs) + HeadClosing()
  }

  /** Everything the template puts after the stylesheet's content. */
  function TemplateFoot(): string {
    " \n" + Indent() + RenderVars
  }

  /** The filled template (src/index.ts, lines 52-64). */
  function Template(pathToTheme: string, sassMap: string, includeAs: string, content: string): string {
    TemplateHead(pathToTheme, sassMap, includeAs) + content + TemplateFoot()
  }

  /** The per-file block this provider writes itself, before any chained text. */
  function OwnBlock(p: Provider, content: string, ctx: LoaderContext): string {
    Template(
      ThemeImportPath(p.lib, p.settings.cwd, p.settings.themeName, ctx.resourcePath, ctx.rootContext),
      SassMapLiteral(p.settings.themeOptions),
      p.settings.includeAs,
      content)
  }

  /** The text appended for the previous value: its result on the same content and
      context for a function, the text itself for a non-empty string, nothing otherwise. */
  function ChainedText(prev: Prev, content: string, ctx: LoaderContext): string {
    match prev
    case Callable(f) => "\n " + f(content, ctx)
    case Literal(s) => if s != "" then "\n " + s else ""
    case Absent => ""
  }

  /** What the per-file function returns for `content` and `ctx`. */
  function Prelude(p: Provider, content: string, ctx: LoaderContext): string {
    OwnBlock(p, content, ctx) + ChainedText(p.prev, content, ctx)
  }

  /** The per-file function as a value, so that it can itself be chained. */
  function LoaderFunction(p: Provider): (string, LoaderContext) -> string {
    (content, ctx) => Prelude(p, content, ctx)
  }

  /** The closure returned by the factory, step by step as the source runs it. */
  method AdditionalData(provider: Provider, content: string, loaderContext: LoaderContext)
    returns (output: string)
    ensures output == Prelude(provider, content, loaderContext)
  {
    var settings := provider.settings;
    var pathToTheme := ThemeImportPath(provider.lib, settings.cwd, settings.themeName,
                                       loaderContext.resourcePath, loaderContext.rootContext);
    var sassMap := RenderThemeOptions(settings.themeOptions);
    output := Template(pathToTheme, sassMap, settings.includeAs, content);
    assert output == OwnBlock(provider, content, loaderContext);
    match provider.prev {
      case Callable(f) =>
        output := output + ("\n " + f(content, loaderContext));
      case Literal(s) =>
        if s != "" {
          output := output + ("\n " + s);
        }
      case Absent =>
    }
  }

  // ----- properties of the prelude -----

  /** The stylesheet's content sits in the output unchanged, after the import of the
      shared theme module and before the `render-vars` include; where it starts does
      not depend on the content. */
  lemma ContentPassthrough(p: Provider, content: string, ctx: LoaderContext)
    ensures var out := Prelude(p, content, ctx);
      var i := |TemplateHead(ThemeImportPath(p.lib, p.settings.cwd, p.settings.themeName,
                                             ctx.resourcePath, ctx.rootContext),
                             SassMapLiteral(p.settings.themeOptions), p.settings.includeAs)|;
      && i + |content| <= |out|
      && out[i..i + |content|] == content
      && Contains(out[..i], UseThemeModule(p.settings.includeAs))
      && StartsWith(out[i + |content|..], TemplateFoot())
  {
    var path := ThemeImportPath(p.lib, p.settings.cwd, p.settings.themeName, ctx.resourcePath, ctx.rootContext);
    var sassMap := SassMapLiteral(p.settings.themeOptions);
    var head := TemplateHead(path, sassMap, p.settings.includeAs);
    var foot, chained := TemplateFoot(), ChainedText(p.prev, content, ctx);
    assert Prelude(p, content, ctx) == head + content + (foot + chained) by {
      ConcatAssoc(head + content, foot, chained);
    }
    SliceAround(head, content, foot + chained);
    HeadStatements(path, sassMap, p.settings.includeAs);
    StartsWithAppend(foot, chained);
  }

  /** The head holds each of the three interpolated statements. */
  lemma HeadStatements(pathToTheme: string, sassMap: string, includeAs: string)
    ensures var head := TemplateHead(pathToTheme, sassMap, includeAs);
      && Contains(head, UseThemeConfig(pathToTheme))
      && Contains(head, MergeStatement(sassMap))
      && Contains(head, UseThemeModule(includeAs))
  {
    var a := HeadOpening() + UseThemeConfig(pathToTheme);
    var b := a + AfterThemeConfig() + MergeStatement(sassMap);
    var c := b + AfterMerge() + UseThemeModule(includeAs);
    ContainsEnd(HeadOpening(), UseThemeConfig(pathToTheme));
    ContainsExtend(a, AfterThemeConfig(), UseThemeConfig(pathToTheme));
    ContainsExtend(a + AfterThemeConfig(), MergeStatement(sassMap), UseThemeConfig(pathToTheme));
    ContainsEnd(a + AfterThemeConfig(), MergeStatement(sassMap));
    ContainsExtend(b, AfterMerge(), UseThemeConfig(pathToTheme));
    ContainsExtend(b, AfterMerge(), MergeStatement(sassMap));
    ContainsExtend(b + AfterMerge(), UseThemeModule(includeAs), UseThemeConfig(pathToTheme));
    ContainsExtend(b + AfterMerge(), UseThemeModule(includeAs), MergeStatement(sassMap));
    ContainsEnd(b + AfterMerge(), UseThemeModule(includeAs));
    ContainsExtend(c, HeadClosing(), UseThemeConfig(pathToTheme));
    ContainsExtend(c, HeadClosing(), MergeStatement(sassMap));
    ContainsExtend(c, HeadClosing(), UseThemeModule(includeAs));
  }

  /** The template's three interpolated statements all appear in the output: the theme
      file's import path, the override map as the second argument of `map.merge`, and
      the caller's alias on the shared theme module's import. */
  lemma TemplateStatements(p: Provider, content: string, ctx: LoaderContext)
    ensures var out := Prelude(p, content, ctx);
      && Contains(out, UseThemeConfig(ThemeImportPath(p.lib, p.settings.cwd, p.settings.themeName,
                                                      ctx.resourcePath, ctx.rootContext)))
      && Contains(out, MergeStatement(SassMapLiteral(p.settings.themeOptions)))
      && Contains(out, UseThemeModule(p.settings.includeAs))
  {
    var path := ThemeImportPath(p.lib, p.settings.cwd, p.settings.themeName, ctx.resourcePath, ctx.rootContext);
    var sassMap := SassMapLiteral(p.settings.themeOptions);
    var head := TemplateHead(path, sassMap, p.settings.includeAs);
    var rest := content + TemplateFoot() + ChainedText(p.prev, content, ctx);
    assert Prelude(p, content, ctx) == head + rest;
    HeadStatements(path, sassMap, p.settings.includeAs);
    ContainsExtend(head, rest, UseThemeConfig(path));
    ContainsExtend(head, rest, MergeStatement(sassMap));
    ContainsExtend(head, rest, UseThemeModule(p.settings.includeAs));
  }

  /** The own block always ends with the `render-vars` include, and the output starts
      with the own block: whatever the previous value contributes comes after it. With
      no previous value, or an empty string, nothing is added. */
  lemma ChainComesLast(p: Provider, content: string, ctx: LoaderContext)
    ensures EndsWith(OwnBlock(p, content, ctx), RenderVars)
    ensures StartsWith(Prelude(p, content, ctx), OwnBlock(p, content, ctx))
    ensures p.prev.Absent? || p.prev == Literal("") ==> Prelude(p, content, ctx) == OwnBlock(p, content, ctx)
  {
    var head := TemplateHead(ThemeImportPath(p.lib, p.settings.cwd, p.settings.themeName,
                                             ctx.resourcePath, ctx.rootContext),
                             SassMapLiteral(p.settings.themeOptions), p.settings.includeAs);
    var beforeRenderVars := head + content + (" \n" + Indent());
    assert OwnBlock(p, content, ctx) == beforeRenderVars + RenderVars by {
      ConcatAssoc(head + content, " \n" + Indent(), RenderVars);
    }
    EndsWithAppend(beforeRenderVars, RenderVars);
    var own, chained := OwnBlock(p, content, ctx), ChainedText(p.prev, content, ctx);
    assert Prelude(p, content, ctx) == own + chained;
    StartsWithAppend(own, chained);
    if p.prev.Absent? || p.prev == Literal("") {
      assert own + chained == own;
    }
  }

  /** A non-empty chained string is appended after a newline and a blank; a chained
      function is called on the same content and loader context, and its result is
      appended the same way. */
  lemma ChainedValueAppended(p: Provider, content: string, ctx: LoaderContext)
    ensures forall text :: p.prev == Literal(text) && text != "" ==>
      Prelude(p, content, ctx) == OwnBlock(p, content, ctx) + ("\n " + text)
    ensures forall f :: p.prev == Callable(f) ==>
      Prelude(p, content, ctx) == OwnBlock(p, content, ctx) + ("\n " + f(content, ctx))
  {
    var own := OwnBlock(p, content, ctx);
    assert Prelude(p, content, ctx) == own + ChainedText(p.prev, content, ctx);
  }

  /** Chaining onto another provider's per-file function puts that provider's whole
      output, with everything it chains in turn, after this provider's own block. */
  lemma ChainedProviders(p: Provider, inner: Provider, content: string, ctx: LoaderContext)
    ensures Prelude(p.(prev := Callable(LoaderFunction(inner))), content, ctx)
         == OwnBlock(p, content, ctx) + "\n " + Prelude(inner, content, ctx)
  {
    var q := p.(prev := Callable(LoaderFunction(inner)));
    var own, rest := OwnBlock(p, content, ctx), Prelude(inner, content, ctx);
    assert OwnBlock(q, content, ctx) == own;
    assert ChainedText(q.prev, content, ctx) == "\n " + rest;
    ConcatAssoc(own, "\n ", rest);
  }

  /** Leaving `includeAs` out re-exports the shared module as `*`; giving it puts
      exactly that alias on the import line. */
  lemma AliasInOutput(options: ProviderOptions, prev: Prev, lib: PathLib, processCwd: string,
                      fileExists: string -> bool, content: string, ctx: LoaderContext)
    requires AdditionalDataProvider(options, prev, lib, processCwd, fileExists).Ok?
    ensures var out := Prelude(AdditionalDataProvider(options, prev, lib, processCwd, fileExists).value, content, ctx);
      && (options.includeAs.Omitted? ==> Contains(out, "@use \"ungic-sass-theme\" as * with ("))
      && (options.includeAs.Given? ==> Contains(out, UseThemeModule(options.includeAs.value)))
  {
    var p := AdditionalDataProvider(options, prev, lib, processCwd, fileExists).value;
    AliasLine(p, content, ctx);
    DefaultAliasLine();
  }

  /** The output imports the shared theme module under the provider's alias. */
  lemma AliasLine(p: Provider, content: string, ctx: LoaderContext)
    ensures Contains(Prelude(p, content, ctx), UseThemeModule(p.settings.includeAs))
  {
    TemplateStatements(p, content, ctx);
  }

  /** The import line for the default alias. */
  lemma DefaultAliasLine()
    ensures UseThemeModule(DefaultIncludeAs) == "@use \"ungic-sass-theme\" as * with ("
  {
  }

  /** On POSIX, for a theme name without separators, every per-file output imports the
      theme through a collapsed path that ends in the theme's file name. */
  lemma PosixThemeImport(options: ProviderOptions, prev: Prev, processCwd: string,
                         fileExists: string -> bool, content: string, ctx: LoaderContext)
    requires AdditionalDataProvider(options, prev, Posix(processCwd), processCwd, fileExists).Ok?
    requires var name := MergeOptions(options, processCwd).themeName; '/' !in name && '\\' !in name
    ensures var p := AdditionalDataProvider(options, prev, Posix(processCwd), processCwd, fileExists).value;
      var path := ThemeImportPath(p.lib, p.settings.cwd, p.settings.themeName, ctx.resourcePath, ctx.rootContext);
      && Contains(Prelude(p, content, ctx), UseThemeConfig(path))
      && Collapsed(path)
      && EndsWith(path, p.settings.themeName + ".scss")
  {
    var p := AdditionalDataProvider(options, prev, Posix(processCwd), processCwd, fileExists).value;
    TemplateStatements(p, content, ctx);
    ThemeImportPathCollapsed(p.lib, p.settings.cwd, p.settings.themeName, ctx.resourcePath, ctx.rootContext);
    PosixJoinKeepsName(processCwd);
    ThemeImportPathEndsWithFile(p.lib, p.settings.cwd, p.settings.themeName, ctx.resourcePath, ctx.rootContext);
  }
}
