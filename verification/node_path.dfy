/** The three functions of Node's `path` module that the prelude generator calls
    (`join`, `relative`, `dirname`). The generator takes them as a record of
    function values, so the rest of the model holds for whichever platform
    supplies them; `Posix` is a model of the POSIX flavour, written over path
    segments. */
module NodePath {
  import opened Strings

  /** The platform's `path.join(a, b)`, `path.relative(from, to)` and `path.dirname(p)`. */
  datatype PathLib = PathLib(
    join: (string, string) -> string,
    relative: (string, string) -> string,
    dirname: string -> string)

  /** A single file name on every platform: no separator of either kind, not a dot segment. */
  predicate IsPlainName(n: string) {
    n != "" && n != "." && n != ".." && '/' !in n && '\\' !in n
  }

  /** Joining a plain file name onto any directory leaves that name at the end. */
  ghost predicate JoinKeepsName(lib: PathLib) {
    forall a, n :: IsPlainName(n) ==> EndsWith(lib.join(a, n), n)
  }

  // ----- POSIX model -----

  /** A segment that normalisation keeps as it is. */
  predicate IsNameSegment(seg: string) {
    seg != "" && seg != "." && seg != ".." && '/' !in seg
  }

  /** One segment of Node's normalisation: "" and "." vanish, ".." removes the last
      kept name (or is kept when the path may climb above its start), a name is kept. */
  function Step(kept: seq<string>, seg: string, allowAboveRoot: bool): seq<string> {
    if seg == "" || seg == "." then kept
    else if seg == ".." then
      if |kept| > 0 && kept[|kept| - 1] != ".." then kept[..|kept| - 1]
      else if allowAboveRoot then kept + [".."]
      else kept
    else kept + [seg]
  }

  /** Normalisation of `segs`, left to right, starting from the segments in `kept`. */
  function NormalizeFrom(kept: seq<string>, segs: seq<string>, allowAboveRoot: bool): seq<string>
    decreases |segs|
  {
    if segs == [] then kept
    else NormalizeFrom(Step(kept, segs[0], allowAboveRoot), segs[1..], allowAboveRoot)
  }

  /** `path.posix.normalize(p)`. */
  function Normalize(p: string): string {
    if p == "" then "."
    else
      var isAbsolute := p[0] == '/';
      var trailingSeparator := p[|p| - 1] == '/';
      var body := Join("/", NormalizeFrom([], Split(p, '/'), !isAbsolute));
      if body == "" then
        (if isAbsolute then "/" else if trailingSeparator then "./" else ".")
      else
        (if isAbsolute then "/" else "") + body + (if trailingSeparator then "/" else "")
  }

  /** `path.posix.join(a, b)`: empty arguments are skipped, the rest joined with "/" and normalised. */
  function PosixJoin(a: string, b: string): string {
    if a == "" && b == "" then "."
    else Normalize(if a == "" then b else if b == "" then a else a + "/" + b)
  }

  /** The segments of `path.posix.resolve(p)` when the process runs in the absolute
      directory `processCwd`. */
  function ResolveSegments(processCwd: string, p: string): seq<string> {
    var full := if |p| > 0 && p[0] == '/' then p else processCwd + "/" + p;
    NormalizeFrom([], Split(full, '/'), false)
  }

  /** Length of the longest common prefix of two segment lists. */
  function CommonPrefixLength(a: seq<string>, b: seq<string>): (k: nat)
    ensures k <= |a| && k <= |b| && a[..k] == b[..k]
    ensures k < |a| && k < |b| ==> a[k] != b[k]
  {
    if a == [] || b == [] || a[0] != b[0] then 0
    else
      var k' := CommonPrefixLength(a[1..], b[1..]);
      assert a[..k' + 1] == [a[0]] + a[1..][..k'];
      assert b[..k' + 1] == [b[0]] + b[1..][..k'];
      k' + 1
  }

  /** `n` parent steps. */
  function Ups(n: nat): (r: seq<string>)
    ensures |r| == n && forall i :: 0 <= i < n ==> r[i] == ".."
  {
    seq(n, _ => "..")
  }

  /** `path.posix.relative(from, to)`: leave the part of `from` that `to` does not
      share with "..", then descend into the rest of `to`. */
  function PosixRelative(processCwd: string, from: string, to: string): string {
    if from == to then ""
    else
      var f := ResolveSegments(processCwd, from);
      var t := ResolveSegments(processCwd, to);
      if f == t then ""
      else
        var k := CommonPrefixLength(f, t);
        Join("/", Ups(|f| - k) + t[k..])
  }

  /** Node's scan for the end of the directory part: from position `i` down to 1,
      the first "/" met after a non-"/" character. */
  function DirnameEnd(p: string, i: int, matchedSlash: bool): (end: int)
    requires i < |p|
    ensures end == -1 || 1 <= end <= i
    decreases i
  {
    if i < 1 then -1
    else if p[i] == '/' then (if !matchedSlash then i else DirnameEnd(p, i - 1, true))
    else DirnameEnd(p, i - 1, false)
  }

  /** `path.posix.dirname(p)`. */
  function PosixDirname(p: string): string {
    if p == "" then "."
    else
      var hasRoot := p[0] == '/';
      var end := DirnameEnd(p, |p| - 1, true);
      if end == -1 then (if hasRoot then "/" else ".")
      else if hasRoot && end == 1 then "//"
      else p[..end]
  }

  /** Node's `path.posix` for a process running in `processCwd`. */
  function Posix(processCwd: string): PathLib {
    PathLib(
      (a, b) => PosixJoin(a, b),
      (from, to) => PosixRelative(processCwd, from, to),
      p => PosixDirname(p))
  }

  // ----- properties of the POSIX model -----

  /** Normalising a concatenation normalises the second part from where the first ended. */
  lemma {:induction false} NormalizeFromConcat(kept: seq<string>, a: seq<string>, b: seq<string>, allow: bool)
    ensures NormalizeFrom(kept, a + b, allow) == NormalizeFrom(NormalizeFrom(kept, a, allow), b, allow)
    decreases |a|
  {
    if a == [] {
      assert a + b == b;
    } else {
      assert (a + b)[1..] == a[1..] + b;
      NormalizeFromConcat(Step(kept, a[0], allow), a[1..], b, allow);
    }
  }

  /** A trailing name segment survives normalisation as the last segment. */
  lemma NormalizeFromName(kept: seq<string>, a: seq<string>, n: string, allow: bool)
    requires IsNameSegment(n)
    ensures NormalizeFrom(kept, a + [n], allow) == NormalizeFrom(kept, a, allow) + [n]
  {
    NormalizeFromConcat(kept, a, [n], allow);
  }

  /** A path whose last segment is a name normalises to text ending in that name. */
  lemma NormalizeKeepsLastName(p: string, n: string)
    requires p != "" && p[|p| - 1] != '/'
    requires IsNameSegment(n)
    requires Split(p, '/')[|Split(p, '/')| - 1] == n
    ensures EndsWith(Normalize(p), n)
  {
    var segs := Split(p, '/');
    var allow := p[0] != '/';
    var init := segs[..|segs| - 1];
    var kept := NormalizeFrom([], init, allow) + [n];
    assert NormalizeFrom([], segs, allow) == kept by {
      assert init + [n] == segs;
      NormalizeFromName([], init, n, allow);
    }
    var body := Join("/", kept);
    assert EndsWith(body, n) && body != "" by {
      JoinEndsWithLast("/", kept);
    }
    NormalizeBody(p, body);
    EndsWithAppend(if p[0] == '/' then "/" else "", body);
  }

  /** A path ending in a "/"-free extension of at least three characters (so that its
      last segment cannot be "." or "..") normalises to text with that ending. */
  lemma NormalizeKeepsEnding(p: string, ext: string)
    requires EndsWith(p, ext) && |ext| >= 3 && '/' !in ext
    ensures EndsWith(Normalize(p), ext)
  {
    var segs := Split(p, '/');
    var last := segs[|segs| - 1];
    SplitLastEndsWith(p, '/', ext);
    SplitPiecesFree(p, '/');
    assert p[|p| - 1] == ext[|ext| - 1];
    assert IsNameSegment(last);
    NormalizeKeepsLastName(p, last);
    EndsWithTrans(Normalize(p), last, ext);
  }

  /** POSIX `join` keeps such an ending of its second argument. */
  lemma PosixJoinKeepsEnding(a: string, b: string, ext: string)
    requires EndsWith(b, ext) && |ext| >= 3 && '/' !in ext
    ensures EndsWith(PosixJoin(a, b), ext)
  {
    var q := if a == "" then b else a + "/" + b;
    assert PosixJoin(a, b) == Normalize(q);
    assert EndsWith(q, ext) by {
      if a != "" {
        assert q[|q| - |ext|..] == b[|b| - |ext|..];
      }
    }
    NormalizeKeepsEnding(q, ext);
  }

  /** Without a trailing "/", a path with a non-empty normalised body is that body,
      behind "/" when the path is absolute. */
  lemma NormalizeBody(p: string, body: string)
    requires p != "" && p[|p| - 1] != '/'
    requires body == Join("/", NormalizeFrom([], Split(p, '/'), p[0] != '/')) && body != ""
    ensures Normalize(p) == (if p[0] == '/' then "/" else "") + body
  {
  }

  /** POSIX `join` keeps a plain file name at the end of its result. */
  lemma PosixJoinName(a: string, n: string)
    requires IsPlainName(n)
    ensures EndsWith(PosixJoin(a, n), n)
  {
    if a == "" {
      NormalizeKeepsLastName(n, n);
    } else {
      var p := a + "/" + n;
      assert p == a + ['/'] + n;
      SplitConcat(a, '/', n);
      NormalizeKeepsLastName(p, n);
    }
  }

  lemma PosixJoinKeepsName(processCwd: string)
    ensures JoinKeepsName(Posix(processCwd))
  {
    forall a, n | IsPlainName(n) ensures EndsWith(Posix(processCwd).join(a, n), n) {
      PosixJoinName(a, n);
    }
  }

  /** Below the last "/", the scan skips the file name and stops at that "/". */
  lemma {:induction false} DirnameEndOfChild(d: string, n: string, i: int, matchedSlash: bool)
    requires '/' !in n
    requires |d| < i < |d| + 1 + |n|
    ensures DirnameEnd(d + "/" + n, i, matchedSlash) == if d == "" then -1 else |d|
    decreases i
  {
    var p := d + "/" + n;
    assert p[i] == n[i - |d| - 1];
    assert p[|d|] == '/';
    if i - 1 > |d| {
      DirnameEndOfChild(d, n, i - 1, false);
    }
  }

  /** The directory of `d/n` is `d` (or the root for `/n`). */
  lemma PosixDirnameOfChild(d: string, n: string)
    requires n != "" && '/' !in n
    requires d == "" || d[|d| - 1] != '/'
    ensures PosixDirname(d + "/" + n) == if d == "" then "/" else d
  {
    var p := d + "/" + n;
    DirnameEndOfChild(d, n, |p| - 1, true);
    assert p[..|d|] == d;
  }

  /** Segments that are all plain names (what resolution produces). */
  predicate AllNames(segs: seq<string>) {
    forall i :: 0 <= i < |segs| ==> IsNameSegment(segs[i])
  }

  /** Without climbing above the root, normalising '/'-free pieces keeps only names. */
  lemma {:induction false} NormalizeFromNames(kept: seq<string>, segs: seq<string>)
    requires AllNames(kept)
    requires forall i :: 0 <= i < |segs| ==> '/' !in segs[i]
    ensures AllNames(NormalizeFrom(kept, segs, false))
    decreases |segs|
  {
    if segs != [] {
      NormalizeFromNames(Step(kept, segs[0], false), segs[1..]);
    }
  }

  /** Every segment of a resolved path is a plain name. */
  lemma ResolvedNames(processCwd: string, p: string)
    ensures AllNames(ResolveSegments(processCwd, p))
  {
    var full := if |p| > 0 && p[0] == '/' then p else processCwd + "/" + p;
    SplitPiecesFree(full, '/');
    NormalizeFromNames([], Split(full, '/'));
  }

  /** Each ".." removes one kept name. */
  lemma {:induction false} NormalizeFromUps(kept: seq<string>, m: nat, allow: bool)
    requires AllNames(kept) && m <= |kept|
    ensures NormalizeFrom(kept, Ups(m), allow) == kept[..|kept| - m]
    decreases m
  {
    if m == 0 {
      assert kept[..|kept|] == kept;
    } else {
      var popped := kept[..|kept| - 1];
      assert Step(kept, "..", allow) == popped;
      assert Ups(m)[1..] == Ups(m - 1);
      NormalizeFromUps(popped, m - 1, allow);
      assert popped[..|popped| - (m - 1)] == kept[..|kept| - m];
    }
  }

  /** Names are kept as they come. */
  lemma {:induction false} NormalizeFromPush(kept: seq<string>, names: seq<string>, allow: bool)
    requires AllNames(names)
    ensures NormalizeFrom(kept, names, allow) == kept + names
    decreases |names|
  {
    if names == [] {
      assert kept + names == kept;
    } else {
      NormalizeFromPush(kept + [names[0]], names[1..], allow);
      assert kept + [names[0]] + names[1..] == kept + names;
    }
  }

  /** The steps `relative` writes to go from the directory `f` to the directory `t`. */
  function RelativeSteps(f: seq<string>, t: seq<string>): seq<string> {
    var k := CommonPrefixLength(f, t);
    Ups(|f| - k) + t[k..]
  }

  /** `relative` depends only on where its two arguments resolve to. */
  lemma RelativeBySegments(processCwd: string, from: string, to: string)
    ensures var f, t := ResolveSegments(processCwd, from), ResolveSegments(processCwd, to);
      PosixRelative(processCwd, from, to) == if f == t then "" else Join("/", RelativeSteps(f, t))
  {
  }

  /** Walking the steps from `f` arrives at `t`. */
  lemma WalkRelativeSteps(f: seq<string>, t: seq<string>)
    requires AllNames(f) && AllNames(t)
    ensures NormalizeFrom(f, RelativeSteps(f, t), false) == t
  {
    WalkUpThenDown(f, t, CommonPrefixLength(f, t), RelativeSteps(f, t));
  }

  /** A suffix of a list of names is a list of names. */
  lemma AllNamesDrop(t: seq<string>, k: nat)
    requires AllNames(t) && k <= |t|
    ensures AllNames(t[k..])
  {
    assert forall i :: 0 <= i < |t| - k ==> t[k..][i] == t[k + i];
  }

  /** Climbing out of `f` to the prefix it shares with `t`, then descending into the
      rest of `t`, arrives at `t`. */
  lemma WalkUpThenDown(f: seq<string>, t: seq<string>, k: nat, steps: seq<string>)
    requires AllNames(f) && AllNames(t)
    requires k <= |f| && k <= |t| && f[..k] == t[..k]
    requires steps == Ups(|f| - k) + t[k..]
    ensures NormalizeFrom(f, steps, false) == t
  {
    var down := t[k..];
    NormalizeFromConcat(f, Ups(|f| - k), down, false);
    NormalizeFromUps(f, |f| - k, false);
    AllNamesDrop(t, k);
    NormalizeFromPush(t[..k], down, false);
    assert t[..k] + down == t;
  }

  lemma JoinStartsWithFirst(sep: string, xs: seq<string>)
    requires xs != [] && xs[0] != ""
    ensures Join(sep, xs) != "" && Join(sep, xs)[0] == xs[0][0]
  {
    if |xs| > 1 {
      JoinStartsWithFirst(sep, xs[..|xs| - 1]);
    }
  }

  /** A relative path resolves from the process directory: its segments continue
      those of the (absolute) process directory. */
  lemma ResolveRelative(processCwd: string, rel: string)
    requires processCwd != "" && processCwd[0] == '/'
    requires rel == "" || rel[0] != '/'
    ensures ResolveSegments(processCwd, rel)
         == NormalizeFrom(ResolveSegments(processCwd, processCwd), Split(rel, '/'), false)
  {
    assert processCwd + "/" + rel == processCwd + ['/'] + rel;
    SplitConcat(processCwd, '/', rel);
    NormalizeFromConcat([], Split(processCwd, '/'), Split(rel, '/'), false);
  }

  /** Round trip of `relative`: resolving its result from the process directory lands
      on `to`, when `from` is the process directory itself. */
  lemma RelativeRoundTrip(processCwd: string, to: string)
    requires processCwd != "" && processCwd[0] == '/'
    ensures ResolveSegments(processCwd, PosixRelative(processCwd, processCwd, to))
         == ResolveSegments(processCwd, to)
  {
    var f, t := ResolveSegments(processCwd, processCwd), ResolveSegments(processCwd, to);
    ResolvedNames(processCwd, processCwd);
    ResolvedNames(processCwd, to);
    RelativeBySegments(processCwd, processCwd, to);
    if f == t {
      ResolveRelative(processCwd, "");
      assert Split("", '/') == [""];
    } else {
      RelativeStepsShape(f, t);
      ResolveSteps(processCwd, RelativeSteps(f, t));
      WalkRelativeSteps(f, t);
    }
  }

  /** Where the steps of a list of names start and end with an empty piece (a leading
      "/" and possibly a trailing one), normalising keeps exactly the names. */
  lemma NormalizeFromBlankEnds(names: seq<string>, trailing: bool)
    requires AllNames(names)
    ensures NormalizeFrom([], [""] + names + (if trailing then [""] else []), false) == names
  {
    var tail: seq<string> := if trailing then [""] else [];
    NormalizeFromConcat([], [""] + names, tail, false);
    NormalizeFromConcat([], [""], names, false);
    assert NormalizeFrom([], [""], false) == [];
    NormalizeFromPush([], names, false);
    assert [] + names == names;
    if trailing {
      assert NormalizeFrom(names, [""], false) == NormalizeFrom(names, [], false);
    }
  }

  /** `normalize` of an absolute path is "/" followed by its resolved names, with the
      trailing "/" kept when there is at least one name. */
  lemma AbsoluteNormalizeShape(p: string)
    requires p != "" && p[0] == '/'
    ensures var names := NormalizeFrom([], Split(p, '/'), false);
      && AllNames(names)
      && Normalize(p) == "/" + Join("/", names) + (if names != [] && p[|p| - 1] == '/' then "/" else "")
  {
    var names := NormalizeFrom([], Split(p, '/'), false);
    ResolvedNames("", p);
    assert ResolveSegments("", p) == names;
    JoinEmpty("/", names);
  }

  /** Resolving "/" followed by a list of names, and possibly a trailing "/", gives
      back those names. */
  lemma ResolveRootedNames(names: seq<string>, trailing: bool)
    requires AllNames(names)
    requires names == [] ==> !trailing
    ensures NormalizeFrom([], Split("/" + Join("/", names) + (if trailing then "/" else ""), '/'), false)
         == names
  {
    var body := Join("/", names);
    var rest := if trailing then body + ['/'] + "" else body;
    assert "/" + body + (if trailing then "/" else "") == "" + ['/'] + rest;
    SplitConcat("", '/', rest);
    if names == [] {
      assert Split(rest, '/') == [""];
      NormalizeFromBlankEnds([], true);
    } else {
      SplitJoin(names, '/');
      if trailing {
        SplitConcat(body, '/', "");
      }
      assert Split("" + ['/'] + rest, '/') == [""] + names + (if trailing then [""] else []);
      NormalizeFromBlankEnds(names, trailing);
    }
  }

  /** Normalising an absolute path does not move where it resolves to. */
  lemma ResolveNormalize(processCwd: string, p: string)
    requires p != "" && p[0] == '/'
    ensures ResolveSegments(processCwd, Normalize(p)) == ResolveSegments(processCwd, p)
  {
    var names := NormalizeFrom([], Split(p, '/'), false);
    AbsoluteNormalizeShape(p);
    var trailing := names != [] && p[|p| - 1] == '/';
    ResolveRootedNames(names, trailing);
  }

  /** `relative` inverts `join`: joining `relative(from, to)` onto an absolute `from`
      resolves to the same location as `to`. */
  lemma RelativeJoinInverse(processCwd: string, from: string, to: string)
    requires from != "" && from[0] == '/'
    ensures ResolveSegments(processCwd, PosixJoin(from, PosixRelative(processCwd, from, to)))
         == ResolveSegments(processCwd, to)
  {
    var f, t := ResolveSegments(processCwd, from), ResolveSegments(processCwd, to);
    var rel := PosixRelative(processCwd, from, to);
    ResolvedNames(processCwd, from);
    ResolvedNames(processCwd, to);
    if from == to || f == t {
      assert PosixJoin(from, rel) == Normalize(from);
      ResolveNormalize(processCwd, from);
    } else {
      var steps := RelativeSteps(f, t);
      assert rel == Join("/", steps);
      RelativeStepsShape(f, t);
      JoinStartsWithFirst("/", steps);
      var q := from + "/" + rel;
      assert PosixJoin(from, rel) == Normalize(q);
      ResolveNormalize(processCwd, q);
      assert q == from + ['/'] + rel;
      SplitConcat(from, '/', rel);
      SplitJoin(steps, '/');
      NormalizeFromConcat([], Split(from, '/'), steps, false);
      WalkRelativeSteps(f, t);
    }
  }

  /** Between two different locations there is at least one step, the first one is
      not empty, and no step holds a "/". */
  lemma RelativeStepsShape(f: seq<string>, t: seq<string>)
    requires AllNames(t) && f != t
    ensures var steps := RelativeSteps(f, t);
      steps != [] && steps[0] != "" && forall i :: 0 <= i < |steps| ==> '/' !in steps[i]
  {
    var k := CommonPrefixLength(f, t);
    var steps := RelativeSteps(f, t);
    forall i | 0 <= i < |steps| ensures steps[i] != "" && '/' !in steps[i] {
      if i >= |f| - k { assert steps[i] == t[k + i - (|f| - k)]; }
    }
  }

  /** Resolving a non-empty list of '/'-free steps from the process directory walks
      those steps from there. */
  lemma ResolveSteps(processCwd: string, steps: seq<string>)
    requires processCwd != "" && processCwd[0] == '/'
    requires steps != [] && steps[0] != "" && forall i :: 0 <= i < |steps| ==> '/' !in steps[i]
    ensures ResolveSegments(processCwd, Join("/", steps))
         == NormalizeFrom(ResolveSegments(processCwd, processCwd), steps, false)
  {
    var rel := Join("/", steps);
    JoinStartsWithFirst("/", steps);
    SplitJoin(steps, '/');
    ResolveRelative(processCwd, rel);
  }

  /** The generator's two-step relativisation `relative(relative(root, dir), target)`
      equals the direct `relative(dir, target)` when the project root is the process
      directory (webpack's default context). */
  lemma TwoStepRelative(processCwd: string, dir: string, target: string)
    requires processCwd != "" && processCwd[0] == '/'
    ensures PosixRelative(processCwd, PosixRelative(processCwd, processCwd, dir), target)
         == PosixRelative(processCwd, dir, target)
  {
    var rel := PosixRelative(processCwd, processCwd, dir);
    RelativeRoundTrip(processCwd, dir);
    RelativeBySegments(processCwd, rel, target);
    RelativeBySegments(processCwd, dir, target);
  }
}
