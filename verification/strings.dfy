/** Text helpers shared by the path model and the Sass renderer: joining a list
    with a separator (JavaScript's Array.prototype.join) and splitting text at a
    separator character (String.prototype.split with a one-character separator). */
module Strings {

  predicate StartsWith(s: string, prefix: string) {
    |prefix| <= |s| && s[..|prefix|] == prefix
  }

  predicate EndsWith(s: string, suffix: string) {
    |suffix| <= |s| && s[|s| - |suffix|..] == suffix
  }

  /** `needle` occurs somewhere inside `s`. */
  ghost predicate Contains(s: string, needle: string) {
    exists i :: 0 <= i <= |s| && StartsWith(s[i..], needle)
  }

  /** The elements of `xs` with `sep` between consecutive ones; "" for no elements. */
  function Join(sep: string, xs: seq<string>): string {
    if |xs| == 0 then ""
    else if |xs| == 1 then xs[0]
    else Join(sep, xs[..|xs| - 1]) + sep + xs[|xs| - 1]
  }

  /** Position of the first `c` in `s`. */
  function FirstIndex(s: string, c: char): (i: nat)
    requires c in s
    ensures i < |s| && s[i] == c && c !in s[..i]
  {
    if s[0] == c then 0 else 1 + FirstIndex(s[1..], c)
  }

  /** The pieces of `s` between occurrences of `c`; there is always at least one piece. */
  function Split(s: string, c: char): (pieces: seq<string>)
    ensures |pieces| >= 1
    decreases |s|
  {
    if c !in s then [s]
    else
      var i := FirstIndex(s, c);
      [s[..i]] + Split(s[i + 1..], c)
  }

  lemma ContainsEnd(a: string, needle: string)
    ensures Contains(a + needle, needle)
  {
    assert (a + needle)[|a|..] == needle;
  }

  lemma ContainsExtend(s: string, t: string, needle: string)
    requires Contains(s, needle)
    ensures Contains(s + t, needle)
  {
    var i :| 0 <= i <= |s| && StartsWith(s[i..], needle);
    assert (s + t)[i..][..|needle|] == s[i..][..|needle|];
  }

  lemma ConcatAssoc(a: string, b: string, c: string)
    ensures a + (b + c) == (a + b) + c
  {
  }

  lemma StartsWithAppend(a: string, b: string)
    ensures StartsWith(a + b, a)
  {
    assert (a + b)[..|a|] == a;
  }

  /** The three parts of `a + b + c` sit at their offsets. */
  lemma SliceAround(a: string, b: string, c: string)
    ensures var s := a + b + c;
      s[..|a|] == a && s[|a|..|a| + |b|] == b && s[|a| + |b|..] == c
  {
  }

  lemma EndsWithAppend(a: string, b: string)
    ensures EndsWith(a + b, b)
  {
    assert (a + b)[|a + b| - |b|..] == b;
  }

  /** A joined list ends with its last element. */
  lemma JoinEndsWithLast(sep: string, xs: seq<string>)
    requires xs != []
    ensures EndsWith(Join(sep, xs), xs[|xs| - 1])
  {
    if |xs| > 1 {
      EndsWithAppend(Join(sep, xs[..|xs| - 1]) + sep, xs[|xs| - 1]);
    }
  }

  /** A `c` with no `c` before it is the first one. */
  lemma {:induction false} FirstIndexAt(s: string, c: char, i: nat)
    requires i < |s| && s[i] == c && c !in s[..i]
    ensures FirstIndex(s, c) == i
    decreases i
  {
    if i > 0 {
      assert s[0] == s[..i][0];
      assert s[1..][..i - 1] == s[..i][1..];
      FirstIndexAt(s[1..], c, i - 1);
    }
  }

  /** The first piece of a split ends at the first `c`. */
  lemma SplitAt(s: string, c: char, i: nat)
    requires i < |s| && s[i] == c && c !in s[..i]
    ensures Split(s, c) == [s[..i]] + Split(s[i + 1..], c)
  {
    FirstIndexAt(s, c, i);
  }

  /** Splitting text at `c` and joining two texts with `c` between them commute. */
  lemma {:induction false} SplitConcat(a: string, c: char, b: string)
    ensures Split(a + [c] + b, c) == Split(a, c) + Split(b, c)
    decreases |a|
  {
    if c !in a {
      SplitConcatFirst(a, c, b);
    } else {
      var i := FirstIndex(a, c);
      var head, rest := a[..i], a[i + 1..];
      var x, y, z := Split(rest + [c] + b, c), Split(rest, c), Split(b, c);
      assert Split(a + [c] + b, c) == [head] + x && Split(a, c) == [head] + y by {
        SplitConcatLater(a, c, b, i);
      }
      assert x == y + z by {
        SplitConcat(rest, c, b);
      }
      assert [head] + (y + z) == ([head] + y) + z;
    }
  }

  /** `SplitConcat` when `a` holds no `c`. */
  lemma SplitConcatFirst(a: string, c: char, b: string)
    requires c !in a
    ensures Split(a + [c] + b, c) == [a] + Split(b, c)
  {
    var s := a + [c] + b;
    assert s[..|a|] == a && s[|a|] == c && s[|a| + 1..] == b;
    SplitAt(s, c, |a|);
  }

  /** `SplitConcat` when the first `c` of `a` is at `i`. */
  lemma SplitConcatLater(a: string, c: char, b: string, i: nat)
    requires i < |a| && a[i] == c && c !in a[..i]
    ensures Split(a + [c] + b, c) == [a[..i]] + Split(a[i + 1..] + [c] + b, c)
    ensures Split(a, c) == [a[..i]] + Split(a[i + 1..], c)
  {
    var s := a + [c] + b;
    assert s[..i] == a[..i] && s[i] == c;
    assert s[i + 1..] == a[i + 1..] + [c] + b;
    SplitAt(s, c, i);
    SplitAt(a, c, i);
  }

  /** Splitting undoes joining when no element contains the separator. */
  lemma {:induction false} SplitJoin(xs: seq<string>, c: char)
    requires |xs| >= 1
    requires forall i :: 0 <= i < |xs| ==> c !in xs[i]
    ensures Split(Join([c], xs), c) == xs
  {
    if |xs| > 1 {
      var init, last := xs[..|xs| - 1], xs[|xs| - 1];
      var joined := Join([c], init);
      assert Join([c], xs) == joined + [c] + last;
      assert Split(joined, c) == init by {
        assert forall i :: 0 <= i < |init| ==> init[i] == xs[i];
        SplitJoin(init, c);
      }
      assert Split(last, c) == [last];
      assert Split(joined + [c] + last, c) == init + [last] by {
        SplitConcat(joined, c, last);
      }
      assert init + [last] == xs;
    }
  }

  /** Joining non-empty pieces yields the empty text only for no pieces. */
  lemma {:induction false} JoinEmpty(sep: string, xs: seq<string>)
    requires forall i :: 0 <= i < |xs| ==> xs[i] != ""
    ensures Join(sep, xs) == "" <==> xs == []
  {
    if |xs| > 1 {
      JoinEmpty(sep, xs[..|xs| - 1]);
    }
  }

  /** An ending of `a` is an ending of every text that ends in `a`. */
  lemma EndsWithTrans(s: string, a: string, b: string)
    requires EndsWith(s, a) && EndsWith(a, b)
    ensures EndsWith(s, b)
  {
    assert s[|s| - |b|..] == s[|s| - |a|..][|a| - |b|..];
  }

  /** An ending of `s` free of `c` is also the ending of the last piece of the split. */
  lemma {:induction false} SplitLastEndsWith(s: string, c: char, suffix: string)
    requires EndsWith(s, suffix) && c !in suffix
    ensures var pieces := Split(s, c); EndsWith(pieces[|pieces| - 1], suffix)
    decreases |s|
  {
    if c in s {
      var i := FirstIndex(s, c);
      var rest := s[i + 1..];
      assert forall j :: |s| - |suffix| <= j < |s| ==> s[j] == suffix[j - (|s| - |suffix|)];
      assert i < |s| - |suffix|;
      assert rest[|rest| - |suffix|..] == s[|s| - |suffix|..];
      SplitLastEndsWith(rest, c, suffix);
      assert Split(s, c) == [s[..i]] + Split(rest, c);
    }
  }

  /** Every piece of a split is free of the separator. */
  lemma {:induction false} SplitPiecesFree(s: string, c: char)
    decreases |s|
    ensures forall i :: 0 <= i < |Split(s, c)| ==> c !in Split(s, c)[i]
  {
    if c in s {
      SplitPiecesFree(s[FirstIndex(s, c) + 1..], c);
    }
  }
}
