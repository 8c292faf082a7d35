# ungic-sass-theme prelude generator, modelled in Dafny

ungic-sass-theme ships one function, `additionalDataProvider(options, prevAdditionalData)`.
It is meant for sass-loader's `additionalData` option. It first fills in default options:
theme name `default`, the process directory as `cwd`, alias `*`, and no overrides. It then
checks that the theme file `<cwd>/<themeName>.scss` exists, and throws an error if it does
not. Otherwise it returns the per-file function that sass-loader calls for every stylesheet.
That function builds a prelude with four parts:

- a relative import of the theme file;
- the theme's variables merged with the caller's overrides, written as a Sass map literal;
- an `@use "ungic-sass-theme" as <alias> with (...)` of the shared theme module;
- the stylesheet's own content, followed by `@include render-vars();`.

After this own block comes any earlier `additionalData` it chains onto, which may be a
string or a function.

The model has five modules:

- `Strings`: joining a list with a separator, and splitting text at a character.
- `NodePath`: the three `path` functions the generator calls. They are a record of function
  values (`PathLib`), so the platform-neutral results about the generator hold for any
  implementation of them. `Posix` is
  a segment model of the POSIX flavour of `path.join`, `path.relative` and `path.dirname`.
- `ThemePath`: the theme's import path. This is the two-step relativisation, the join with
  `<themeName>.scss`, and the collapse of every run of `/` and `\` into one `/`.
- `SassMap`: the override map literal. It has a specification function and the loop that
  renders it, and the literal can be read back into its keys and values.
- `Provider`: the options merge, the existence check, the template with its exact
  whitespace, the chain step, and the per-file function as a method.

Two things about the environment are parameters:

- `fs.existsSync` is `fileExists: string -> bool`.
- `process.cwd()` is `processCwd`.

When the project root passed by webpack is the process directory (webpack's default
context), the two-step `relative(relative(rootContext, dirname(resource)), cwd)` equals the
direct `relative(dirname(resource), cwd)`. On POSIX this is proved as
`NodePath.TwoStepRelative`.

The compiled `output/index.js` differs from `src/index.ts` in one place. At line 35 it
imports `"../theme/index.scss"` instead of `"ungic-sass-theme"`. The model follows
`src/index.ts`.

## Model

| member | source | states |
|---|---|---|
| Provider.MergeOptions | src/index.ts:17-23 | Each field the caller gives is kept as given. Each omitted field takes its default: theme name `default`, `cwd` the process directory, no overrides, alias `*`. |
| Provider.AdditionalDataProvider | src/index.ts:25-28 | The factory fails exactly when `join(cwd, themeName + ".scss")` does not exist. The error message is that path followed by ` ungic theme file not exist`. Otherwise the result holds the merged settings, the chained value and the path functions. |
| Provider.AdditionalData | src/index.ts:30-72 | The per-file closure, run step by step: path, override loop, template, then the chain `+=`. Its result is the specified prelude, the own block followed by the chained text. |
| Provider.ContentPassthrough | src/index.ts:52-64 | The content appears verbatim, at an offset that does not depend on the content. Before it comes the `@use "ungic-sass-theme" as <alias> with (` line. The text after it starts with the template's tail, which ends in `@include render-vars();`. |
| Provider.HeadStatements | src/index.ts:52-62 | The template part before the content holds three statements: the theme file's aliased import, the `map.merge` with the override map, and the theme module's import under the alias. |
| Provider.TemplateStatements | src/index.ts:52-64 | Every per-file output holds the theme import with the computed path, the `map.merge` whose second argument is the override literal, and the alias line with `includeAs` unchanged. |
| Provider.ChainComesLast | src/index.ts:64-71 | The own block ends with `@include render-vars();`, and the output starts with the own block, so chained text can only follow it. With no previous value, or an empty string, the output is exactly the own block. |
| Provider.ChainedValueAppended | src/index.ts:66-70 | A non-empty previous string is appended after `"\n "`. A previous function is called on the same content and loader context, and its result is appended after `"\n "`. |
| Provider.ChainedProviders | src/index.ts:66-67 | Chaining onto another provider's per-file function puts that provider's complete output, and everything it chains in turn, after this provider's own block. |
| Provider.AliasInOutput | src/index.ts:60 | If `includeAs` is omitted, the output imports the theme module `as *`. If it is given, the output imports it under exactly that alias. |
| Provider.PosixThemeImport | src/index.ts:36-55 | With POSIX paths and a theme name without separators, every output imports the theme through a path. That path is collapsed and ends in `<themeName>.scss`. |
| SassMap.RenderThemeOptions | src/index.ts:46-50 | The loop that pushes `key: value` for every option and then wraps the `,`-joined list in parentheses. It yields exactly the override literal function. |
| SassMap.SassMapLiteralEmpty | src/index.ts:46-50 | For every options object, the literal is `()` exactly when there are no options. |
| SassMap.SassMapLiteralRoundTrip | src/index.ts:46-50 | When no key holds `,` or `:` and no value holds `,`, reading the literal back gives every key and value text, in the options' order. |
| SassMap.ParseEntriesOfOptions | src/index.ts:47-49 | When no key holds `:`, each pushed entry splits back at its first `: ` into its key and its value text, whatever the values hold. |
| ThemePath.CollapseSeparators | src/index.ts:44 | `replace(/[\/\\]+/g, "/")`. It never lengthens the text, it empties only empty text, and a leading separator run becomes `/`. |
| ThemePath.CollapseIsCollapsed | src/index.ts:44 | After the replacement there is no `\` and no two `/` in a row. |
| ThemePath.CollapseKeepsCollapsed | src/index.ts:44 | Text with no `\` and no doubled `/` is left unchanged by the replacement. |
| ThemePath.CollapseIdempotent | src/index.ts:44 | Applying the replacement a second time changes nothing. |
| ThemePath.CollapseKeepsNonSeparators | src/index.ts:44 | The replacement only merges separators. Every other character stays, in order. |
| ThemePath.CollapseAppend | src/index.ts:44 | A separator-free tail, such as the theme file name, passes through the replacement untouched. |
| ThemePath.ThemeImportPathCollapsed | src/index.ts:36-44 | On every platform the theme import path is collapsed, and collapsing it again leaves it unchanged. |
| ThemePath.ThemeImportPathEndsWithFile | src/index.ts:36-44 | For a theme name without `/` or `\`, the import path is never empty and ends in `<themeName>.scss`. This holds when `join` keeps a file name last, and even when both relativisations give the empty path. |
| ThemePath.PosixImportPathEndsInScss | src/index.ts:36-44 | On POSIX, for every theme name, the import path is never empty and ends in `.scss`. |
| ThemePath.PosixImportPathFromResourceDir | src/index.ts:36-44 | On POSIX, with the project root equal to the process directory, the import path is the theme file relative to the stylesheet's own directory. |
| NodePath.PosixJoinName | src/index.ts:37-43 | POSIX `join(dir, name)` ends in `name` for a plain file name, whatever `dir` is, including `""`. |
| NodePath.PosixJoinKeepsEnding | src/index.ts:37-43 | POSIX `join(a, b)` keeps any ending of `b` that has no `/` and at least three characters, such as `.scss`. |
| NodePath.PosixJoinKeepsName | src/index.ts:37-43 | The POSIX path functions meet the `join` property that `ThemeImportPathEndsWithFile` requires. |
| NodePath.PosixDirnameOfChild | src/index.ts:39 | For a `dir` that does not end in `/` and a non-empty name without `/`, POSIX `dirname(dir + "/" + name)` is `dir`, or `/` when `dir` is empty. |
| NodePath.ResolveNormalize | src/index.ts:37-43 | The normalisation inside POSIX `join` never changes where an absolute path resolves to. |
| NodePath.RelativeJoinInverse | src/index.ts:37-43 | POSIX `relative` inverts `join`: for an absolute `from`, `join(from, relative(from, to))` resolves to the same location as `to`. |
| NodePath.WalkRelativeSteps | src/index.ts:38-41 | Walking the steps that `relative` writes, starting from `from`, arrives at `to`. |
| NodePath.RelativeRoundTrip | src/index.ts:38-41 | Resolving `relative(processDir, to)` from the process directory gives the same location as `to`. |
| NodePath.TwoStepRelative | src/index.ts:38-41 | On POSIX, with the root equal to the process directory, `relative(relative(root, dir), target)` equals `relative(dir, target)`. |

## Left out

- `fs.existsSync` and `process.cwd()` are I/O and process state. They are the parameters `fileExists` and `processCwd`.
- Buffer decoding (`content.toString()`): the content is modelled as already-decoded text.
- Windows path semantics (drive letters, `\` separators, case-insensitive comparison) are not modelled. Only the POSIX instance of `PathLib` is. The platform-neutral lemmas (`ThemePath.ThemeImportPathCollapsed`, `Provider.TemplateStatements`, `Provider.ContentPassthrough`, `Provider.ChainComesLast`) hold for any `PathLib`.
- The process directory is taken to be absolute, as `process.cwd()` always is. This is a requirement of `NodePath.ResolveRelative`, `NodePath.RelativeRoundTrip`, `NodePath.TwoStepRelative` and `ThemePath.PosixImportPathFromResourceDir`.
- `ThemePath.PosixImportPathFromResourceDir` and `NodePath.TwoStepRelative` hold only for POSIX paths and when the project root is the process directory. `Provider.PosixThemeImport` holds only for POSIX paths.
- SassMap.SassMapLiteralRoundTrip: the literal is not read back for a key holding `,` or `:`, or a value holding `,`. For example, the key `a,b` gives `(a,b: 1)`, which splits into `a` and `b: 1`. The generator does not escape these characters.
- An exception thrown by a chained `prevAdditionalData` function propagates out of the per-file function unchanged, since there is no `try`. A Dafny function value cannot fail, so the chained function is total here (`Provider.Prev.Callable`) and this error path is not modelled.
- The loader context is only its `resourcePath` and `rootContext`. A chained function receives the same two fields, not the rest of webpack's loader context.
- Sass semantics are not modelled: module resolution, `map.merge` overriding, and what `render-vars` emits. The generator only writes this text and does not interpret it.
- An options field present but set to `undefined` is not modelled. The object spread would let it override the default. A field is either omitted or given a value.
- `themeOptions` is its key/value pairs in `for ... in` order. JavaScript's enumeration order (integer-like keys first, ascending) is left to the caller that builds the sequence. `src/types.ts` declares two boolean fields. The model also allows string values, interpolated as written. Numbers and nested objects, and their string conversion, are not modelled.
- Provider.ChainedValueAppended: states that the chained function's result on the same content and context is appended. That it is called exactly once is not observable for a pure function value, so it is not stated.
- `output/index.js` and `output/index.d.ts` are compiled output and declarations. `src/types.ts` is declarations only. `test/webpack.config.js` is build configuration. None of them is part of this model.
