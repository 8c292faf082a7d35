/** The caller's theme overrides rendered as a Sass map literal (src/index.ts,
    lines 46-50): one `key: value` entry per option, in the object's enumeration
    order, joined with "," and wrapped in parentheses. */
module SassMap {
  import opened Strings

  datatype Option<T> = None | Some(value: T)

  /** A value of the `themeOptions` object as the template interpolates it. */
  datatype OptionValue = Text(text: string) | Flag(flag: bool)

  /** The `themeOptions` object as its key/value pairs in `for ... in` order. */
  type ThemeOptions = seq<(string, OptionValue)>

  /** JavaScript's string conversion of an option value. */
  function ValueText(v: OptionValue): string {
    match v
    case Text(t) => t
    case Flag(b) => if b then "true" else "false"
  }

  /** The text pushed for one option: `${key}: ${value}`. */
  function EntryText(option: (string, OptionValue)): string {
    option.0 + ": " + ValueText(option.1)
  }

  /** The entry texts of all options, in order. */
  function Entries(options: ThemeOptions): (entries: seq<string>)
    ensures |entries| == |options|
  {
    seq(|options|, i requires 0 <= i < |options| => EntryText(options[i]))
  }

  /** The override map literal: `(k1: v1,k2: v2,...)`. */
  function SassMapLiteral(options: ThemeOptions): string {
    "(" + Join(",", Entries(options)) + ")"
  }

  /** The loop of the source: push one entry per option, then join and wrap. */
  method RenderThemeOptions(themeOptions: ThemeOptions) returns (sassMap: string)
    ensures sassMap == SassMapLiteral(themeOptions)
  {
    var sassOptionsList: seq<string> := [];
    var i := 0;
    while i < |themeOptions|
      invariant 0 <= i <= |themeOptions|
      invariant |sassOptionsList| == i
      invariant forall k :: 0 <= k < i ==> sassOptionsList[k] == EntryText(themeOptions[k])
    {
      sassOptionsList := sassOptionsList + [EntryText(themeOptions[i])];
      i := i + 1;
    }
    assert sassOptionsList == Entries(themeOptions);
    sassMap := "(" + Join(",", sassOptionsList) + ")";
  }

  // ----- reading a literal back -----

  /** Splits one entry at its first ": ", the separator the renderer put there. */
  function ParseEntry(e: string): Option<(string, string)> {
    if ':' !in e then None
    else
      var i := FirstIndex(e, ':');
      if i + 1 < |e| && e[i + 1] == ' ' then Some((e[..i], e[i + 2..])) else None
  }

  function ParseEntries(es: seq<string>): Option<seq<(string, string)>> {
    if es == [] then Some([])
    else
      match (ParseEntry(es[0]), ParseEntries(es[1..]))
      case (Some(kv), Some(rest)) => Some([kv] + rest)
      case _ => None
  }

  /** Reads a map literal back into its key/value texts; None when it is not one. */
  function ParseSassMap(s: string): Option<seq<(string, string)>> {
    if |s| < 2 || s[0] != '(' || s[|s| - 1] != ')' then None
    else
      var inner := s[1..|s| - 1];
      if inner == "" then Some([]) else ParseEntries(Split(inner, ','))
  }

  /** The options as the key/value texts that the literal spells out. */
  function Rendered(options: ThemeOptions): (r: seq<(string, string)>)
    ensures |r| == |options|
  {
    seq(|options|, i requires 0 <= i < |options| => (options[i].0, ValueText(options[i].1)))
  }

  /** Keys without ":": each entry then splits back at its first ": ". */
  predicate KeysWithoutColon(options: ThemeOptions) {
    forall i :: 0 <= i < |options| ==> ':' !in options[i].0
  }

  /** Keys without "," or ":" and values without "," can be read back from the literal. */
  predicate Unambiguous(options: ThemeOptions) {
    forall i :: 0 <= i < |options| ==>
      ',' !in options[i].0 && ':' !in options[i].0 && ',' !in ValueText(options[i].1)
  }

  lemma ParseEntryText(key: string, value: string)
    requires ':' !in key
    ensures ParseEntry(key + ": " + value) == Some((key, value))
  {
    var e := key + ": " + value;
    assert e[..|key|] == key && e[|key|] == ':';
    assert FirstIndex(e, ':') == |key|;
    assert e[|key| + 2..] == value;
  }

  lemma ParseEntriesCons(es: seq<string>, kv: (string, string), rest: seq<(string, string)>)
    requires es != []
    requires ParseEntry(es[0]) == Some(kv) && ParseEntries(es[1..]) == Some(rest)
    ensures ParseEntries(es) == Some([kv] + rest)
  {
  }

  /** The entries and the rendered pairs of a non-empty object start with its first option. */
  lemma OptionsCons(options: ThemeOptions)
    requires options != []
    ensures Entries(options) == [EntryText(options[0])] + Entries(options[1..])
    ensures Rendered(options) == [(options[0].0, ValueText(options[0].1))] + Rendered(options[1..])
    ensures KeysWithoutColon(options) ==> KeysWithoutColon(options[1..])
  {
    assert forall i :: 0 <= i < |options| - 1 ==> options[1..][i] == options[i + 1];
  }

  /** Every entry reads back as its key and value text, whatever the values hold. */
  lemma {:induction false} ParseEntriesOfOptions(options: ThemeOptions)
    requires KeysWithoutColon(options)
    ensures ParseEntries(Entries(options)) == Some(Rendered(options))
    decreases |options|
  {
    if options != [] {
      var tail := options[1..];
      var kv := (options[0].0, ValueText(options[0].1));
      OptionsCons(options);
      ParseEntryText(kv.0, kv.1);
      ParseEntriesOfOptions(tail);
      ParseEntriesCons(Entries(options), kv, Rendered(tail));
    }
  }

  /** An object renders as "()" exactly when it has no options, whatever its keys and
      values hold: every entry contains at least ": ". */
  lemma SassMapLiteralEmpty(options: ThemeOptions)
    ensures SassMapLiteral(options) == "()" <==> options == []
  {
    assert forall i :: 0 <= i < |options| ==> Entries(options)[i] != "";
    JoinEmpty(",", Entries(options));
  }

  /** The literal is a faithful rendering: when no key holds "," or ":" and no value
      holds ",", reading it back gives every key and value text, in the options' order. */
  lemma SassMapLiteralRoundTrip(options: ThemeOptions)
    requires Unambiguous(options)
    ensures ParseSassMap(SassMapLiteral(options)) == Some(Rendered(options))
  {
    var s := SassMapLiteral(options);
    var inner := Join(",", Entries(options));
    assert s[1..|s| - 1] == inner;
    SassMapLiteralEmpty(options);
    if options != [] {
      assert forall i :: 0 <= i < |options| ==> ',' !in Entries(options)[i] by {
        forall i | 0 <= i < |options| ensures ',' !in Entries(options)[i] {
          var k, v := options[i].0, ValueText(options[i].1);
          assert Entries(options)[i] == k + ": " + v;
          assert forall j :: 0 <= j < |k + ": " + v| ==> (k + ": " + v)[j] in k || (k + ": " + v)[j] in ": " || (k + ": " + v)[j] in v;
        }
      }
      SplitJoin(Entries(options), ',');
      ParseEntriesOfOptions(options);
    }
  }
}
