/** The import path of the theme file as the generator computes it per stylesheet
    (src/index.ts, lines 36-44): the resource's directory relative to the project
    root, the theme directory relative to that, the theme file name joined on, and
    every run of "/" or "\" collapsed into one "/". */
module ThemePath {
  import opened Strings
  import opened NodePath

  predicate IsSeparator(ch: char) {
    ch == '/' || ch == '\\'
  }

  /** `s` without its leading run of separators. */
  function DropSeparators(s: string): (r: string)
    ensures |r| <= |s|
    ensures r == "" || !IsSeparator(r[0])
  {
    if s != [] && IsSeparator(s[0]) then DropSeparators(s[1..]) else s
  }

  /** `s.replace(/[\/\\]+/g, "/")`: every maximal run of "/" and "\" becomes one "/". */
  function CollapseSeparators(s: string): (r: string)
    ensures |r| <= |s|
    ensures s == "" <==> r == ""
    ensures s != "" ==> (IsSeparator(s[0]) ==> r[0] == '/') && (!IsSeparator(s[0]) ==> r[0] == s[0])
    decreases |s|
  {
    if s == [] then []
    else if IsSeparator(s[0]) then "/" + CollapseSeparators(DropSeparators(s[1..]))
    else [s[0]] + CollapseSeparators(s[1..])
  }

  /** No "\" and no two "/" in a row. */
  predicate Collapsed(s: string) {
    '\\' !in s && forall i :: 0 <= i < |s| - 1 ==> !(s[i] == '/' && s[i + 1] == '/')
  }

  /** The characters of `s` that are not separators, in order. */
  function NonSeparators(s: string): string {
    if s == [] then []
    else if IsSeparator(s[0]) then NonSeparators(s[1..])
    else [s[0]] + NonSeparators(s[1..])
  }

  /** The collapsed text has no backslash and no doubled slash. */
  lemma {:induction false} CollapseIsCollapsed(s: string)
    ensures Collapsed(CollapseSeparators(s))
    decreases |s|
  {
    if s != [] {
      var r := CollapseSeparators(s);
      if IsSeparator(s[0]) {
        var rest := DropSeparators(s[1..]);
        CollapseIsCollapsed(rest);
        var t := CollapseSeparators(rest);
        assert r == "/" + t;
        assert t != "" ==> t[0] != '/';
        assert forall i :: 1 <= i < |r| - 1 ==> r[i] == t[i - 1] && r[i + 1] == t[i];
      } else {
        CollapseIsCollapsed(s[1..]);
        var t := CollapseSeparators(s[1..]);
        assert r == [s[0]] + t;
        assert forall i :: 1 <= i < |r| - 1 ==> r[i] == t[i - 1] && r[i + 1] == t[i];
      }
    }
  }

  /** Text that is already collapsed is left as it is. */
  lemma {:induction false} CollapseKeepsCollapsed(s: string)
    requires Collapsed(s)
    ensures CollapseSeparators(s) == s
    decreases |s|
  {
    if s != [] {
      var t := s[1..];
      assert Collapsed(t) by {
        assert forall i :: 0 <= i < |t| ==> t[i] == s[i + 1];
      }
      CollapseKeepsCollapsed(t);
      if IsSeparator(s[0]) {
        assert s[0] == '/';
        assert t != [] ==> !IsSeparator(t[0]);
        assert DropSeparators(t) == t;
        assert CollapseSeparators(s) == "/" + t;
      } else {
        assert CollapseSeparators(s) == [s[0]] + t;
      }
      assert s == [s[0]] + t;
    }
  }

  /** Collapsing twice is collapsing once. */
  lemma CollapseIdempotent(s: string)
    ensures CollapseSeparators(CollapseSeparators(s)) == CollapseSeparators(s)
  {
    CollapseIsCollapsed(s);
    CollapseKeepsCollapsed(CollapseSeparators(s));
  }

  /** Collapsing removes and merges separators only: every other character stays, in order. */
  lemma {:induction false} CollapseKeepsNonSeparators(s: string)
    ensures NonSeparators(CollapseSeparators(s)) == NonSeparators(s)
    decreases |s|
  {
    if s != [] {
      if IsSeparator(s[0]) {
        var rest := DropSeparators(s[1..]);
        CollapseKeepsNonSeparators(rest);
        DropKeepsNonSeparators(s[1..]);
        assert ("/" + CollapseSeparators(rest))[1..] == CollapseSeparators(rest);
      } else {
        CollapseKeepsNonSeparators(s[1..]);
        assert ([s[0]] + CollapseSeparators(s[1..]))[1..] == CollapseSeparators(s[1..]);
      }
    }
  }

  lemma {:induction false} DropKeepsNonSeparators(s: string)
    ensures NonSeparators(DropSeparators(s)) == NonSeparators(s)
    decreases |s|
  {
    if s != [] && IsSeparator(s[0]) {
      DropKeepsNonSeparators(s[1..]);
    }
  }

  /** Dropping a leading run never reaches into a separator-free tail. */
  lemma {:induction false} DropSeparatorsAppend(x: string, n: string)
    requires forall i :: 0 <= i < |n| ==> !IsSeparator(n[i])
    ensures DropSeparators(x + n) == DropSeparators(x) + n
    decreases |x|
  {
    if x == [] {
      assert x + n == n;
    } else if IsSeparator(x[0]) {
      assert (x + n)[1..] == x[1..] + n;
      DropSeparatorsAppend(x[1..], n);
    }
  }

  lemma {:induction false} CollapseSeparatorFree(n: string)
    requires forall i :: 0 <= i < |n| ==> !IsSeparator(n[i])
    ensures CollapseSeparators(n) == n
    decreases |n|
  {
    if n != [] {
      CollapseSeparatorFree(n[1..]);
      assert n == [n[0]] + n[1..];
    }
  }

  lemma CollapseAfterSeparator(s: string, rest: string)
    requires s != [] && IsSeparator(s[0]) && rest == DropSeparators(s[1..])
    ensures CollapseSeparators(s) == "/" + CollapseSeparators(rest)
  {
  }

  /** A separator-free tail passes through the collapse untouched. */
  lemma {:induction false} CollapseAppend(x: string, n: string)
    requires forall i :: 0 <= i < |n| ==> !IsSeparator(n[i])
    ensures CollapseSeparators(x + n) == CollapseSeparators(x) + n
    decreases |x|
  {
    if x == [] {
      assert x + n == n;
      CollapseSeparatorFree(n);
    } else if IsSeparator(x[0]) {
      var rest := DropSeparators(x[1..]);
      CollapseAppend(rest, n);
      CollapseAppendAfterSeparator(x, n, rest);
    } else {
      CollapseAppend(x[1..], n);
      CollapseAppendAfterOther(x, n);
    }
  }

  /** The step of `CollapseAppend` for text that starts with a separator. */
  lemma CollapseAppendAfterSeparator(x: string, n: string, rest: string)
    requires forall i :: 0 <= i < |n| ==> !IsSeparator(n[i])
    requires x != [] && IsSeparator(x[0]) && rest == DropSeparators(x[1..])
    requires CollapseSeparators(rest + n) == CollapseSeparators(rest) + n
    ensures CollapseSeparators(x + n) == CollapseSeparators(x) + n
  {
    DropSeparatorsAppend(x[1..], n);
    LeadingSeparatorAppend(x, n, rest);
    CollapseAfterSeparator(x, rest);
    ConcatAssoc("/", CollapseSeparators(rest), n);
  }

  /** A separator run at the front of `x + n` collapses as it does at the front of `x`. */
  lemma LeadingSeparatorAppend(x: string, n: string, rest: string)
    requires x != [] && IsSeparator(x[0])
    requires DropSeparators(x[1..] + n) == rest + n
    ensures CollapseSeparators(x + n) == "/" + CollapseSeparators(rest + n)
  {
    assert (x + n)[0] == x[0] && (x + n)[1..] == x[1..] + n;
  }

  /** The step of `CollapseAppend` for text that starts with any other character. */
  lemma CollapseAppendAfterOther(x: string, n: string)
    requires x != [] && !IsSeparator(x[0])
    requires CollapseSeparators(x[1..] + n) == CollapseSeparators(x[1..]) + n
    ensures CollapseSeparators(x + n) == CollapseSeparators(x) + n
  {
    LeadingOtherAppend(x, n);
    ConcatAssoc([x[0]], CollapseSeparators(x[1..]), n);
  }

  /** Any other first character of `x + n` is kept. */
  lemma LeadingOtherAppend(x: string, n: string)
    requires x != [] && !IsSeparator(x[0])
    ensures CollapseSeparators(x + n) == [x[0]] + CollapseSeparators(x[1..] + n)
  {
    assert (x + n)[0] == x[0] && (x + n)[1..] == x[1..] + n;
  }

  /** The theme file's import path for a stylesheet at `resourcePath` in a project
      rooted at `rootContext`, with the theme named `themeName` in directory `cwd`. */
  function ThemeImportPath(lib: PathLib, cwd: string, themeName: string,
                           resourcePath: string, rootContext: string): string
  {
    CollapseSeparators(
      lib.join(
        lib.relative(lib.relative(rootContext, lib.dirname(resourcePath)), cwd),
        themeName + ".scss"))
  }

  /** On every platform the import path is collapsed, and collapsing it again changes nothing. */
  lemma ThemeImportPathCollapsed(lib: PathLib, cwd: string, themeName: string,
                                 resourcePath: string, rootContext: string)
    ensures var path := ThemeImportPath(lib, cwd, themeName, resourcePath, rootContext);
      Collapsed(path) && CollapseSeparators(path) == path
  {
    var joined := lib.join(lib.relative(lib.relative(rootContext, lib.dirname(resourcePath)), cwd),
                           themeName + ".scss");
    CollapseIsCollapsed(joined);
    CollapseIdempotent(joined);
  }

  /** When `join` keeps a file name last (as POSIX `join` does), the import path is
      never empty and ends in the theme's file name, whatever the two relativisations
      return, including the empty path of a stylesheet in the project root. */
  lemma ThemeImportPathEndsWithFile(lib: PathLib, cwd: string, themeName: string,
                                    resourcePath: string, rootContext: string)
    requires JoinKeepsName(lib)
    requires '/' !in themeName && '\\' !in themeName
    ensures var path := ThemeImportPath(lib, cwd, themeName, resourcePath, rootContext);
      path != "" && EndsWith(path, themeName + ".scss")
  {
    var file := themeName + ".scss";
    assert IsPlainName(file) by {
      assert file[|file| - 1] == 's';
      assert forall i :: 0 <= i < |file| ==> file[i] != '/' && file[i] != '\\' by {
        forall i | 0 <= i < |file| ensures file[i] != '/' && file[i] != '\\' {
          if i < |themeName| { assert file[i] == themeName[i]; }
        }
      }
    }
    var dir := lib.relative(lib.relative(rootContext, lib.dirname(resourcePath)), cwd);
    var joined := lib.join(dir, file);
    assert EndsWith(joined, file);
    var x := joined[..|joined| - |file|];
    assert joined == x + file;
    CollapseAppend(x, file);
    EndsWithAppend(CollapseSeparators(x), file);
  }

  /** On POSIX the import path is never empty and ends in ".scss", whatever the theme
      name holds: `join` normalises, which keeps the last segment, and the collapse
      leaves a separator-free ending alone. */
  lemma PosixImportPathEndsInScss(processCwd: string, cwd: string, themeName: string,
                                  resourcePath: string, rootContext: string)
    ensures var path := ThemeImportPath(Posix(processCwd), cwd, themeName, resourcePath, rootContext);
      path != "" && EndsWith(path, ".scss")
  {
    var lib := Posix(processCwd);
    var dir := lib.relative(lib.relative(rootContext, lib.dirname(resourcePath)), cwd);
    EndsWithAppend(themeName, ".scss");
    PosixJoinKeepsEnding(dir, themeName + ".scss", ".scss");
    CollapseKeepsEnding(lib.join(dir, themeName + ".scss"), ".scss");
  }

  /** The collapse keeps a non-empty separator-free ending. */
  lemma CollapseKeepsEnding(s: string, ext: string)
    requires EndsWith(s, ext) && ext != []
    requires forall i :: 0 <= i < |ext| ==> !IsSeparator(ext[i])
    ensures CollapseSeparators(s) != "" && EndsWith(CollapseSeparators(s), ext)
  {
    var x := s[..|s| - |ext|];
    assert s == x + ext;
    CollapseAppend(x, ext);
    EndsWithAppend(CollapseSeparators(x), ext);
  }

  /** On POSIX, when the project root is the process directory (webpack's default
      context), the two relativisations amount to one: the import path is the theme
      file relative to the stylesheet's own directory. */
  lemma PosixImportPathFromResourceDir(processCwd: string, cwd: string, themeName: string,
                                       resourcePath: string)
    requires processCwd != "" && processCwd[0] == '/'
    ensures ThemeImportPath(Posix(processCwd), cwd, themeName, resourcePath, processCwd)
         == CollapseSeparators(PosixJoin(PosixRelative(processCwd, PosixDirname(resourcePath), cwd),
                                         themeName + ".scss"))
  {
    TwoStepRelative(processCwd, PosixDirname(resourcePath), cwd);
  }
}
