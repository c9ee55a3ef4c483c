/**
 * Topic strings of the composite-metric server: the exact-match
 * subscription pattern built for each input topic (`escape_regex` and the
 * `"^" + ... + "$"` wrapping) and the split of a result topic at its last
 * `@` into metric type and asset name.
 */
module TopicGrammar {
  import opened Wrappers

  /** The characters `escape_regex` looks up with `strchr`. */
  const RegexMeta: string := ".^$|()[]{}*+?\\"

  /** A regular-expression metacharacter of the pattern language. */
  predicate IsMeta(c: char) {
    c in RegexMeta
  }

  /**
   * True when `escape_regex` puts a backslash in front of `c`: `strchr`
   * also finds the string terminator, so a NUL character is escaped too.
   */
  predicate NeedsEscape(c: char) {
    IsMeta(c) || c == '\0'
  }

  /** What `escape_regex` emits for one character of its input. */
  function EscapeChar(c: char): string {
    if NeedsEscape(c) then ['\\', c] else [c]
  }

  /** The escaped text of a whole topic, character by character, in order. */
  function Escaped(s: string): string {
    if s == [] then [] else EscapeChar(s[0]) + Escaped(s[1..])
  }

  /** Number of characters of `s` that receive a backslash. */
  function EscapeCount(s: string): nat {
    if s == [] then 0 else (if NeedsEscape(s[0]) then 1 else 0) + EscapeCount(s[1..])
  }

  /** Escaping distributes over appending one character at the end. */
  lemma {:induction false} EscapedSnoc(s: string, c: char)
    ensures Escaped(s + [c]) == Escaped(s) + EscapeChar(c)
  {
    if s == [] {
      assert [c][1..] == [];
    } else {
      assert (s + [c])[0] == s[0];
      assert (s + [c])[1..] == s[1..] + [c];
      EscapedSnoc(s[1..], c);
    }
  }

  /**
   * `escape_regex`: copy the input, putting one backslash before every
   * character `NeedsEscape` selects.
   */
  method EscapeRegex(notregex: string) returns (result: string)
    ensures result == Escaped(notregex)
  {
    result := "";
    for i := 0 to |notregex|
      invariant result == Escaped(notregex[..i])
    {
      var c := notregex[i];
      if NeedsEscape(c) {
        result := result + "\\";
      }
      result := result + [c];
      assert notregex[..i + 1] == notregex[..i] + [c];
      EscapedSnoc(notregex[..i], c);
    }
    assert notregex[..|notregex|] == notregex;
  }

  /** The escaped text is longer than the topic by one per escaped character. */
  lemma {:induction false} EscapedLength(s: string)
    ensures |Escaped(s)| == |s| + EscapeCount(s)
  {
    if s != [] {
      EscapedLength(s[1..]);
    }
  }

  /**
   * The subject that a pattern made only of literal characters and
   * backslash-escaped characters matches, or None when the pattern holds an
   * unescaped metacharacter or ends in a lone backslash (it is then not a
   * literal).
   */
  function Unescape(p: string): Option<string> {
    if p == [] then Some([])
    else if p[0] == '\\' then
      if |p| < 2 then None
      else match Unescape(p[2..])
        case Some(rest) => Some([p[1]] + rest)
        case None => None
    else if IsMeta(p[0]) then None
    else match Unescape(p[1..])
      case Some(rest) => Some([p[0]] + rest)
      case None => None
  }

  /** Dropping the inserted backslashes gives back the topic. */
  lemma {:induction false} UnescapeEscaped(s: string)
    ensures Unescape(Escaped(s)) == Some(s)
  {
    if s != [] {
      UnescapeEscaped(s[1..]);
      var e := Escaped(s);
      if NeedsEscape(s[0]) {
        assert e == ['\\', s[0]] + Escaped(s[1..]);
        assert e[2..] == Escaped(s[1..]);
      } else {
        assert e == [s[0]] + Escaped(s[1..]);
        assert e[1..] == Escaped(s[1..]);
      }
      assert [s[0]] + s[1..] == s;
    }
  }

  /** The anchored exact-match pattern registered for an input topic. */
  function SubscriptionFilter(topic: string): string {
    "^" + Escaped(topic) + "$"
  }

  /**
   * The one subject an anchored literal pattern `^...$` accepts, or None when
   * the pattern is not of that form.
   */
  function FilterSubject(pattern: string): Option<string> {
    if |pattern| >= 2 && pattern[0] == '^' && pattern[|pattern| - 1] == '$'
    then Unescape(pattern[1..|pattern| - 1])
    else None
  }

  /** A subscription filter accepts exactly the topic it was built from. */
  lemma FilterRoundTrip(topic: string)
    ensures FilterSubject(SubscriptionFilter(topic)) == Some(topic)
  {
    var f := SubscriptionFilter(topic);
    assert f[1..|f| - 1] == Escaped(topic);
    UnescapeEscaped(topic);
  }

  /** Two different topics never share a subscription filter. */
  lemma FilterInjective(t1: string, t2: string)
    requires SubscriptionFilter(t1) == SubscriptionFilter(t2)
    ensures t1 == t2
  {
    FilterRoundTrip(t1);
    FilterRoundTrip(t2);
  }

  /** `strrchr`: the position of the last occurrence of `c` in `s`. */
  function LastIndexOf(s: string, c: char): (r: Option<nat>)
    ensures r.None? <==> c !in s
    ensures r.Some? ==> r.value < |s| && s[r.value] == c && c !in s[r.value + 1..]
  {
    if s == [] then None
    else if s[|s| - 1] == c then Some(|s| - 1)
    else
      assert s == s[..|s| - 1] + [s[|s| - 1]];
      LastIndexOf(s[..|s| - 1], c)
  }

  /**
   * A result topic split at its last `@` into (type, name), or None when it
   * has no `@` at all.
   */
  function SplitTopic(topic: string): (r: Option<(string, string)>)
    ensures r.None? <==> '@' !in topic
    ensures r.Some? ==> r.value.0 + "@" + r.value.1 == topic && '@' !in r.value.1
  {
    match LastIndexOf(topic, '@')
    case None => None
    case Some(i) =>
      assert topic == topic[..i] + "@" + topic[i + 1..];
      Some((topic[..i], topic[i + 1..]))
  }

  /** Joining a type and an `@`-free name and splitting again gives both back. */
  lemma JoinSplit(metricType: string, name: string)
    requires '@' !in name
    ensures SplitTopic(metricType + "@" + name) == Some((metricType, name))
  {
    var t := metricType + "@" + name;
    assert t[|metricType|] == '@';
    var i := LastIndexOf(t, '@').value;
    assert t[..i] == metricType;
    assert t[i + 1..] == name;
  }
}
