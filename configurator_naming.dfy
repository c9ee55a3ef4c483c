/**
 * The strings the composite-metric configurator builds for one asset: the
 * per-sensor input topics, the descriptor's `in` array and offsets script
 * lines, the filled-in descriptor template, the result topic, and the file
 * and service names; and the inverse used on teardown, from a `.cfg` file
 * name back to its service.
 */
module ConfiguratorNaming {
  import opened Wrappers
  import opened TopicGrammar

  /** The two composite metrics generated for each asset. */
  datatype Quantity = Temperature | Humidity

  function QuantityName(q: Quantity): string {
    match q
    case Temperature => "temperature"
    case Humidity => "humidity"
  }

  function Units(q: Quantity): string {
    match q
    case Temperature => "C"
    case Humidity => "%"
  }

  /** The sensor attribute holding the calibration offset of a quantity. */
  function OffsetKey(q: Quantity): string {
    match q
    case Temperature => "calibration_offset_t"
    case Humidity => "calibration_offset_h"
  }

  /** A sensor asset message, as far as it is read here: its ext and aux attributes. */
  datatype Sensor = Sensor(ext: map<string, string>, aux: map<string, string>)

  /** `fty_proto_ext_string` / `fty_proto_aux_string`: the attribute, or the default. */
  function Attribute(attrs: map<string, string>, key: string, default: string): string {
    if key in attrs then attrs[key] else default
  }

  const UnknownAttribute: string := "(unknown)"

  /** The input topic of a sensor: `<quantity>.<port>@<parent_name.1>`. */
  function InputTopic(q: Quantity, s: Sensor): string {
    QuantityName(q) + "." + Attribute(s.ext, "port", UnknownAttribute) + "@"
      + Attribute(s.aux, "parent_name.1", UnknownAttribute)
  }

  /** The sensor's calibration offset for a quantity, "0.0" when not set. */
  function Offset(q: Quantity, s: Sensor): string {
    Attribute(s.ext, OffsetKey(q), "0.0")
  }

  /** The script line recording a sensor's offset under its input topic. */
  function OffsetLine(q: Quantity, s: Sensor): string {
    "    offsets['" + InputTopic(q, s) + "'] = " + Offset(q, s) + ";\n"
  }

  const OffsetsHeader: string := "    offsets = {};\n"

  /** The input topics of a sensor list, in list order. */
  function Topics(q: Quantity, sensors: seq<Sensor>): (ts: seq<string>)
    ensures |ts| == |sensors|
    ensures forall i :: 0 <= i < |sensors| ==> ts[i] == InputTopic(q, sensors[i])
  {
    if sensors == [] then []
    else Topics(q, sensors[..|sensors| - 1]) + [InputTopic(q, sensors[|sensors| - 1])]
  }

  function Quote(t: string): string {
    "\"" + t + "\""
  }

  /** The quoted topics separated by `", "`. */
  function JoinQuoted(ts: seq<string>): string {
    if ts == [] then ""
    else if |ts| == 1 then Quote(ts[0])
    else Quote(ts[0]) + ", " + JoinQuoted(ts[1..])
  }

  /** Appending a topic adds a separator unless the list was empty. */
  lemma {:induction false} JoinQuotedSnoc(ts: seq<string>, t: string)
    ensures JoinQuoted(ts + [t]) == if ts == [] then Quote(t) else JoinQuoted(ts) + ", " + Quote(t)
  {
    if |ts| == 1 {
      assert (ts + [t])[1..] == [t];
    } else if |ts| > 1 {
      assert (ts + [t])[1..] == ts[1..] + [t];
      JoinQuotedSnoc(ts[1..], t);
    }
  }

  /** The text that replaces `##IN##`: a JSON array of the input topics. */
  function InText(q: Quantity, sensors: seq<Sensor>): string {
    "[ " + JoinQuoted(Topics(q, sensors)) + " ]"
  }

  /** The offset lines of a sensor list, in list order. */
  function OffsetLines(q: Quantity, sensors: seq<Sensor>): string {
    if sensors == [] then ""
    else OffsetLines(q, sensors[..|sensors| - 1]) + OffsetLine(q, sensors[|sensors| - 1])
  }

  /** The text that replaces `##OFFSETS##`. */
  function OffsetsText(q: Quantity, sensors: seq<Sensor>): string {
    OffsetsHeader + OffsetLines(q, sensors)
  }

  /** The offset lines of two lists one after the other are those of the lists' concatenation. */
  lemma {:induction false} OffsetLinesAppend(q: Quantity, a: seq<Sensor>, b: seq<Sensor>)
    ensures OffsetLines(q, a + b) == OffsetLines(q, a) + OffsetLines(q, b)
  {
    if b == [] {
      assert a + b == a;
    } else {
      var init, last := b[..|b| - 1], b[|b| - 1];
      assert (a + b)[..|a + b| - 1] == a + init;
      assert (a + b)[|a + b| - 1] == last;
      OffsetLinesAppend(q, a, init);
      TextAssoc(OffsetLines(q, a), OffsetLines(q, init), OffsetLine(q, last));
    }
  }

  /** Concatenation of three texts is associative. */
  lemma TextAssoc(x: string, y: string, z: string)
    ensures x + y + z == x + (y + z)
  {
  }

  /**
   * Every sensor contributes its own offset line, between the lines of the
   * sensors before it and those after it, so every topic of the `in` array
   * has an entry in `offsets`.
   */
  lemma OffsetLineOf(q: Quantity, sensors: seq<Sensor>, k: nat)
    requires k < |sensors|
    ensures OffsetsText(q, sensors)
         == OffsetsHeader + OffsetLines(q, sensors[..k]) + OffsetLine(q, sensors[k]) + OffsetLines(q, sensors[k + 1..])
  {
    var pre, x, post := sensors[..k], sensors[k], sensors[k + 1..];
    assert sensors == pre + [x] + post;
    OffsetLinesAppend(q, pre + [x], post);
    OffsetLinesAppend(q, pre, [x]);
    assert OffsetLines(q, [x]) == OffsetLine(q, x) by {
      assert [x][..0] == [];
    }
    var h, a, l, p := OffsetsHeader, OffsetLines(q, pre), OffsetLine(q, x), OffsetLines(q, post);
    TextAssoc(h, a + l, p);
    TextAssoc(h, a, l);
  }

  /** Position of the first `c` in `s`, or `|s|` when there is none. */
  function FindChar(s: string, c: char): (r: nat)
    ensures r <= |s|
    ensures r < |s| ==> s[r] == c
    ensures forall k :: 0 <= k < r ==> s[k] != c
  {
    if s == [] then 0 else if s[0] == c then 0 else 1 + FindChar(s[1..], c)
  }

  /**
   * A string that JSON writes as it is between its quotes: no double quote,
   * no backslash and no control character. For these alone the descriptor's
   * JSON reader decodes an array entry to the very characters between the
   * quotes, which is all `QuotedItems` does.
   */
  predicate JsonPlain(t: string) {
    forall i :: 0 <= i < |t| ==> t[i] != '"' && t[i] != '\\' && t[i] >= ' '
  }

  /**
   * The strings between successive pairs of double quotes: how a reader of
   * the descriptor sees the entries of a JSON array of `JsonPlain` strings.
   * Escape sequences are not decoded.
   */
  function QuotedItems(s: string): seq<string>
    decreases |s|
  {
    if s == [] then []
    else if s[0] != '"' then QuotedItems(s[1..])
    else
      var j := FindChar(s[1..], '"');
      if j == |s| - 1 then []
      else [s[1..1 + j]] + QuotedItems(s[j + 2..])
  }

  lemma {:induction false} QuotedItemsSkip(p: string, s: string)
    requires '"' !in p
    ensures QuotedItems(p + s) == QuotedItems(s)
  {
    if p != [] {
      assert p[0] in p;
      assert (p + s)[0] == p[0];
      assert (p + s)[1..] == p[1..] + s;
      QuotedItemsSkip(p[1..], s);
    } else {
      assert p + s == s;
    }
  }

  lemma QuotedItemsRead(x: string, s: string)
    requires '"' !in x
    ensures QuotedItems(Quote(x) + s) == [x] + QuotedItems(s)
  {
    var t := Quote(x) + s;
    assert t[1..] == x + "\"" + s;
    var j := FindChar(t[1..], '"');
    assert t[1..][|x|] == '"';
    assert j == |x|;
    assert t[1..1 + j] == x;
    assert t[j + 2..] == s;
  }

  /** The scan reads back joined, quoted items that contain no double quote. */
  lemma {:induction false} QuoteFreeRoundTrip(ts: seq<string>, suffix: string)
    requires forall i :: 0 <= i < |ts| ==> '"' !in ts[i]
    requires '"' !in suffix
    ensures QuotedItems(JoinQuoted(ts) + suffix) == ts
  {
    if ts == [] {
      QuotedItemsSkip(suffix, []);
      assert JoinQuoted(ts) + suffix == suffix + [];
    } else if |ts| == 1 {
      QuotedItemsRead(ts[0], suffix);
      QuotedItemsSkip(suffix, []);
      assert suffix + [] == suffix;
    } else {
      var rest := JoinQuoted(ts[1..]) + suffix;
      assert JoinQuoted(ts) + suffix == Quote(ts[0]) + (", " + rest);
      QuotedItemsRead(ts[0], ", " + rest);
      QuotedItemsSkip(", ", rest);
      QuoteFreeRoundTrip(ts[1..], suffix);
      assert ts == [ts[0]] + ts[1..];
    }
  }

  /**
   * Reading back the joined, quoted topics gives the topics, for topics
   * that JSON carries without escapes.
   */
  lemma JoinQuotedRoundTrip(ts: seq<string>, suffix: string)
    requires forall i :: 0 <= i < |ts| ==> JsonPlain(ts[i])
    requires '"' !in suffix
    ensures QuotedItems(JoinQuoted(ts) + suffix) == ts
  {
    forall i | 0 <= i < |ts|
      ensures '"' !in ts[i]
    {
      PlainNoQuote(ts[i]);
    }
    QuoteFreeRoundTrip(ts, suffix);
  }

  lemma PlainNoQuote(t: string)
    requires JsonPlain(t)
    ensures '"' !in t
  {
  }

  /**
   * The `in` array lists exactly the sensors' input topics, in list order,
   * when every topic is `JsonPlain` (the generator writes topics without
   * JSON escaping).
   */
  lemma InTextRoundTrip(q: Quantity, sensors: seq<Sensor>)
    requires forall i :: 0 <= i < |sensors| ==> JsonPlain(InputTopic(q, sensors[i]))
    ensures QuotedItems(InText(q, sensors)) == Topics(q, sensors)
  {
    var ts := Topics(q, sensors);
    assert InText(q, sensors) == "[ " + (JoinQuoted(ts) + " ]");
    QuotedItemsSkip("[ ", JoinQuoted(ts) + " ]");
    JoinQuotedRoundTrip(ts, " ]");
  }

  /** `"-" + function` when the generator is given a sensor function. */
  function Qualifier(sensorFunction: Option<string>): string {
    match sensorFunction
    case None => ""
    case Some(f) => "-" + f
  }

  /** The topic of the generated composite metric. */
  function ResultTopic(q: Quantity, sensorFunction: Option<string>, asset: string): string {
    "average." + QuantityName(q) + Qualifier(sensorFunction) + "@" + asset
  }

  /** Name of the descriptor file and of the service instance, without extension. */
  function FileBase(q: Quantity, sensorFunction: Option<string>, asset: string): string {
    asset + Qualifier(sensorFunction) + "-" + QuantityName(q)
  }

  function ConfigPath(dir: string, base: string): string {
    dir + "/" + base + ".cfg"
  }

  const ServicePrefix: string := "fty-metric-composite@"

  function ServiceName(base: string): string {
    ServicePrefix + base
  }

  /**
   * The engine splits a result topic into type `average.<quantity>[-<function>]`
   * and name `<asset>` when the asset name has no `@`.
   */
  lemma ResultTopicSplit(q: Quantity, sensorFunction: Option<string>, asset: string)
    requires '@' !in asset
    ensures SplitTopic(ResultTopic(q, sensorFunction, asset))
         == Some(("average." + QuantityName(q) + Qualifier(sensorFunction), asset))
  {
    JoinSplit("average." + QuantityName(q) + Qualifier(sensorFunction), asset);
  }

  /** The first `@` ends an `@`-free prefix, so equal joins have equal parts. */
  lemma AtJoinInjective(p: string, p': string, a: string, b: string)
    requires '@' !in p && '@' !in p'
    requires p + "@" + a == p' + "@" + b
    ensures p == p' && a == b
  {
    FirstAt(p, a);
    FirstAt(p', b);
    var s := p + "@" + a;
    assert p == s[..|p|] == p';
    assert a == s[|p| + 1..] == b;
  }

  /** The first `@` of `p + "@" + a` is the one after `p` when `p` has none. */
  lemma FirstAt(p: string, a: string)
    requires '@' !in p
    ensures FindChar(p + "@" + a, '@') == |p|
  {
    var s := p + "@" + a;
    assert s[|p|] == '@';
    assert forall k :: 0 <= k < |p| ==> s[k] == p[k];
  }

  // Names the configurator's selftest expects, one per lemma.

  lemma SelftestRack01File()
    ensures FileBase(Temperature, Some("input"), "Rack01") + ".cfg" == "Rack01-input-temperature.cfg"
  {
  }

  lemma SelftestRack02File()
    ensures FileBase(Humidity, Some("output"), "Rack02") + ".cfg" == "Rack02-output-humidity.cfg"
  {
  }

  lemma SelftestRack02Topic()
    ensures ResultTopic(Humidity, Some("input"), "Rack02") == "average.humidity-input@Rack02"
  {
  }

  lemma SelftestCurieTopic()
    ensures ResultTopic(Temperature, None, "Curie.Row02") == "average.temperature@Curie.Row02"
  {
  }

  // The descriptor template, cut at its four placeholders.

  const Tmpl0: string := "{\n\"in\" : "
  const Tmpl1: string := ",\n\"evaluation\": \"\n"
  // The evaluation body between the offsets and the result topic, kept in
  // short pieces so that each piece can be checked to hold no `#`.
  const Body0: string := "\n    sum = 0;\n    num = 0;\n"
  const Body1: string := "    for key,value in pairs(mt) do\n"
  const Body2: string := "        sum = sum + value + offsets[key];\n"
  const Body3: string := "        num = num + 1;\n    end;\n"
  const Body4: string := "    if num == 0 then "
  const Body5: string := "error('all sensors lost'); end;\n"
  const Body6: string := "    tmp = sum / num;\n    return '"
  const Tmpl2: string := Body0 + Body1 + Body2 + Body3 + Body4 + Body5 + Body6
  const Tmpl3: string := "', tmp, '"
  const Tmpl4: string := "', 0;\"\n}\n"

  const InPlaceholder: string := "##IN##"
  const OffsetsPlaceholder: string := "##OFFSETS##"
  const ResultTopicPlaceholder: string := "##RESULT_TOPIC##"
  const UnitsPlaceholder: string := "##UNITS##"

  const Template: string :=
    Tmpl0 + (InPlaceholder + (Tmpl1 + (OffsetsPlaceholder + (Tmpl2
    + (ResultTopicPlaceholder + (Tmpl3 + (UnitsPlaceholder + Tmpl4)))))))

  /** `p` occurs in `s` starting at position `k`. */
  predicate OccursAt(s: string, p: string, k: nat) {
    k + |p| <= |s| && s[k..k + |p|] == p
  }

  /** The first position at or after `i` where `p` occurs in `s`. */
  function FindFrom(s: string, p: string, i: nat): (r: Option<nat>)
    requires i <= |s|
    ensures r.Some? ==> i <= r.value && OccursAt(s, p, r.value)
    ensures r.Some? ==> forall k: nat :: i <= k < r.value ==> !OccursAt(s, p, k)
    ensures r.None? ==> forall k: nat :: i <= k ==> !OccursAt(s, p, k)
    decreases |s| - i
  {
    if i + |p| > |s| then None
    else if s[i..i + |p|] == p then Some(i)
    else FindFrom(s, p, i + 1)
  }

  /** `std::string::find`: the first position where `p` occurs in `s`. */
  function FindFirst(s: string, p: string): (r: Option<nat>)
    ensures r.Some? ==> OccursAt(s, p, r.value)
    ensures r.Some? ==> forall k: nat :: k < r.value ==> !OccursAt(s, p, k)
    ensures r.None? ==> forall k: nat :: !OccursAt(s, p, k)
  {
    FindFrom(s, p, 0)
  }

  /**
   * Replace the first occurrence of `p` at or after position `i`, scanning
   * forward; the text is left as it is when there is none.
   */
  function ReplaceFrom(s: string, p: string, r: string, i: nat): string
    requires i <= |s|
    decreases |s| - i
  {
    if i + |p| > |s| then s
    else if s[i..i + |p|] == p then s[..i] + r + s[i + |p|..]
    else ReplaceFrom(s, p, r, i + 1)
  }

  /**
   * `contents.replace(contents.find(p), p.size(), r)`. The C++ call throws
   * when `p` is missing; the model then leaves the text as it is.
   */
  function ReplaceFirst(s: string, p: string, r: string): string {
    ReplaceFrom(s, p, r, 0)
  }

  /** The scan replaces exactly at the position `find` reports. */
  lemma {:induction false} ReplaceFromFind(s: string, p: string, r: string, i: nat)
    requires i <= |s|
    ensures ReplaceFrom(s, p, r, i) == match FindFrom(s, p, i)
                                      case None => s
                                      case Some(j) => s[..j] + r + s[j + |p|..]
    decreases |s| - i
  {
    if i + |p| <= |s| && s[i..i + |p|] != p {
      ReplaceFromFind(s, p, r, i + 1);
    }
  }

  /** A placeholder behind `#`-free text is found where it stands and replaced there. */
  lemma ReplaceAfterPlain(a: string, p: string, rest: string, r: string)
    requires '#' !in a
    requires |p| > 0 && p[0] == '#'
    ensures ReplaceFirst(a + p + rest, p, r) == a + r + rest
  {
    var s := a + p + rest;
    ReplaceFromFind(s, p, r, 0);
    assert s[|a|..|a| + |p|] == p;
    assert OccursAt(s, p, |a|);
    var i := FindFirst(s, p).value;
    assert s[..i] == a;
    assert s[i + |p|..] == rest;
  }

  /** The placeholders of the template with their replacements, in the order they are filled. */
  function Substitutions(q: Quantity, sensorFunction: Option<string>, asset: string, sensors: seq<Sensor>): seq<(string, string)> {
    [(InPlaceholder, InText(q, sensors)),
     (OffsetsPlaceholder, OffsetsText(q, sensors)),
     (ResultTopicPlaceholder, ResultTopic(q, sensorFunction, asset)),
     (UnitsPlaceholder, Units(q))]
  }

  /** Replace the first occurrence of each placeholder in turn. */
  function FillAll(s: string, subs: seq<(string, string)>): string
    decreases |subs|
  {
    if subs == [] then s else FillAll(ReplaceFirst(s, subs[0].0, subs[0].1), subs[1..])
  }

  /** The descriptor written for one quantity: the template with its placeholders filled. */
  function Contents(q: Quantity, sensorFunction: Option<string>, asset: string, sensors: seq<Sensor>): string {
    FillAll(Template, Substitutions(q, sensorFunction, asset, sensors))
  }

  /** Filling four placeholders is replacing them one after the other. */
  lemma FillFour(s: string, subs: seq<(string, string)>)
    requires |subs| == 4
    ensures FillAll(s, subs)
         == ReplaceFirst(ReplaceFirst(ReplaceFirst(ReplaceFirst(s, subs[0].0, subs[0].1),
              subs[1].0, subs[1].1), subs[2].0, subs[2].1), subs[3].0, subs[3].1)
  {
    var c1 := ReplaceFirst(s, subs[0].0, subs[0].1);
    var c2 := ReplaceFirst(c1, subs[1].0, subs[1].1);
    var c3 := ReplaceFirst(c2, subs[2].0, subs[2].1);
    var c4 := ReplaceFirst(c3, subs[3].0, subs[3].1);
    assert FillAll(s, subs) == FillAll(c1, subs[1..]);
    assert FillAll(c1, subs[1..]) == FillAll(c2, subs[2..]);
    assert FillAll(c2, subs[2..]) == FillAll(c3, subs[3..]);
    assert FillAll(c3, subs[3..]) == FillAll(c4, subs[4..]);
  }

  /** Concatenating two `#`-free texts gives a `#`-free text. */
  lemma PlainConcat(a: string, b: string)
    requires '#' !in a && '#' !in b
    ensures '#' !in a + b
  {
    assert forall i :: 0 <= i < |a + b| ==> (a + b)[i] == if i < |a| then a[i] else b[i - |a|];
  }

  // Each piece of the evaluation body carries no `#`; one lemma per piece
  // keeps each literal check small.
  lemma Body0Plain() ensures '#' !in Body0 {}
  lemma Body1Plain() ensures '#' !in Body1 {}
  lemma Body2Plain() ensures '#' !in Body2 {}
  lemma Body3Plain() ensures '#' !in Body3 {}
  lemma Body4Plain() ensures '#' !in Body4 {}
  lemma Body5Plain() ensures '#' !in Body5 {}
  lemma Body6Plain() ensures '#' !in Body6 {}

  /** The fixed parts of the template carry no `#`. */
  lemma TemplatePlain()
    ensures '#' !in Tmpl0 && '#' !in Tmpl1 && '#' !in Tmpl2 && '#' !in Tmpl3 && '#' !in Tmpl4
  {
    Body0Plain(); Body1Plain(); Body2Plain(); Body3Plain();
    Body4Plain(); Body5Plain(); Body6Plain();
    var b0, b1, b2, b3, b4, b5, b6 := Body0, Body1, Body2, Body3, Body4, Body5, Body6;
    assert Tmpl2 == b0 + b1 + b2 + b3 + b4 + b5 + b6;
    PlainConcat(b0, b1);
    PlainConcat(b0 + b1, b2);
    PlainConcat(b0 + b1 + b2, b3);
    PlainConcat(b0 + b1 + b2 + b3, b4);
    PlainConcat(b0 + b1 + b2 + b3 + b4, b5);
    PlainConcat(b0 + b1 + b2 + b3 + b4 + b5, b6);
  }

  /** One placeholder replaced behind a `#`-free head, the result regrouped for the next step. */
  lemma FillStep(head: string, p: string, x: string, fixed: string, rest: string)
    requires '#' !in head && '#' !in x && '#' !in fixed
    requires |p| > 0 && p[0] == '#'
    ensures ReplaceFirst(head + (p + (fixed + rest)), p, x) == (head + x + fixed) + rest
    ensures '#' !in head + x + fixed
  {
    ReplaceAfterPlain(head, p, fixed + rest, x);
    TextAssoc(head, p, fixed + rest);
    TextAssoc(head + x, fixed, rest);
    PlainConcat(head, x);
    PlainConcat(head + x, fixed);
  }

  /**
   * Filling the four placeholders in turn, when the fixed parts and the
   * inserted texts before the last one hold no `#`.
   */
  lemma FillTemplate(t0: string, t1: string, t2: string, t3: string, t4: string,
                     a: string, b: string, c: string, d: string)
    requires '#' !in t0 && '#' !in t1 && '#' !in t2 && '#' !in t3
    requires '#' !in a && '#' !in b && '#' !in c
    ensures var f := t0 + (InPlaceholder + (t1 + (OffsetsPlaceholder + (t2
                     + (ResultTopicPlaceholder + (t3 + (UnitsPlaceholder + t4)))))));
            ReplaceFirst(ReplaceFirst(ReplaceFirst(ReplaceFirst(f, InPlaceholder, a),
              OffsetsPlaceholder, b), ResultTopicPlaceholder, c), UnitsPlaceholder, d)
            == t0 + a + t1 + b + t2 + c + t3 + d + t4
  {
    var pi, po, pr, pu := InPlaceholder, OffsetsPlaceholder, ResultTopicPlaceholder, UnitsPlaceholder;
    assert pi[0] == '#' && po[0] == '#' && pr[0] == '#' && pu[0] == '#';
    var r3 := pu + t4;
    var r2 := pr + (t3 + r3);
    var r1 := po + (t2 + r2);
    var f := t0 + (pi + (t1 + r1));
    FillStep(t0, pi, a, t1, r1);
    var h2 := t0 + a + t1;
    var f1 := ReplaceFirst(f, pi, a);
    assert f1 == h2 + (po + (t2 + r2));
    FillStep(h2, po, b, t2, r2);
    var h3 := h2 + b + t2;
    var f2 := ReplaceFirst(f1, po, b);
    assert f2 == h3 + (pr + (t3 + r3));
    FillStep(h3, pr, c, t3, r3);
    var h4 := h3 + c + t3;
    var f3 := ReplaceFirst(f2, pr, c);
    assert f3 == h4 + pu + t4;
    ReplaceAfterPlain(h4, pu, t4, d);
  }

  /**
   * When the inserted texts hold no `#`, each placeholder is replaced once,
   * where it stands in the template.
   */
  lemma ContentsLayout(q: Quantity, sensorFunction: Option<string>, asset: string, sensors: seq<Sensor>)
    requires '#' !in InText(q, sensors)
    requires '#' !in OffsetsText(q, sensors)
    requires '#' !in ResultTopic(q, sensorFunction, asset)
    ensures Contents(q, sensorFunction, asset, sensors)
         == Tmpl0 + InText(q, sensors) + Tmpl1 + OffsetsText(q, sensors) + Tmpl2
            + ResultTopic(q, sensorFunction, asset) + Tmpl3 + Units(q) + Tmpl4
  {
    TemplatePlain();
    FillFour(Template, Substitutions(q, sensorFunction, asset, sensors));
    FillTemplate(Tmpl0, Tmpl1, Tmpl2, Tmpl3, Tmpl4,
                 InText(q, sensors), OffsetsText(q, sensors), ResultTopic(q, sensorFunction, asset), Units(q));
  }

  /** A line break, which `.` in a regular expression does not match. */
  predicate IsLineTerminator(c: char) {
    c == '\n' || c == '\r'
  }

  /** The file names teardown acts on: those matching `.+\.cfg` in full. */
  predicate IsCfgName(name: string) {
    && |name| >= 5
    && name[|name| - 4..] == ".cfg"
    && forall i :: 0 <= i < |name| - 4 ==> !IsLineTerminator(name[i])
  }

  /** The service teardown stops for a `.cfg` file: the name without its last four characters. */
  function CfgService(name: string): string
    requires |name| >= 4
  {
    ServicePrefix + name[..|name| - 4]
  }

  /** Teardown recognises every descriptor name and recovers its service. */
  lemma CfgNameRoundTrip(base: string)
    requires |base| >= 1
    requires forall i :: 0 <= i < |base| ==> !IsLineTerminator(base[i])
    ensures IsCfgName(base + ".cfg")
    ensures CfgService(base + ".cfg") == ServiceName(base)
  {
    var name := base + ".cfg";
    assert name[..|name| - 4] == base;
    assert name[|name| - 4..] == ".cfg";
  }

  /**
   * The file written for a quantity is torn down by the service it was
   * started as, whenever asset and function hold no line break.
   */
  lemma GeneratedFileTornDown(q: Quantity, sensorFunction: Option<string>, asset: string)
    requires forall i :: 0 <= i < |asset| ==> !IsLineTerminator(asset[i])
    requires sensorFunction.Some? ==> forall i :: 0 <= i < |sensorFunction.value| ==> !IsLineTerminator(sensorFunction.value[i])
    ensures IsCfgName(FileBase(q, sensorFunction, asset) + ".cfg")
    ensures CfgService(FileBase(q, sensorFunction, asset) + ".cfg") == ServiceName(FileBase(q, sensorFunction, asset))
  {
    var dash := "-";
    assert NoBreak(dash);
    var qualifier := Qualifier(sensorFunction);
    if sensorFunction.Some? {
      NoBreakConcat(dash, sensorFunction.value);
    }
    var name := QuantityName(q);
    assert NoBreak(name);
    NoBreakConcat(asset, qualifier);
    NoBreakConcat(asset + qualifier, dash);
    NoBreakConcat(asset + qualifier + dash, name);
    CfgNameRoundTrip(FileBase(q, sensorFunction, asset));
  }

  /** No character of `s` is a line break. */
  predicate NoBreak(s: string) {
    forall i :: 0 <= i < |s| ==> !IsLineTerminator(s[i])
  }

  /** Two texts without line breaks make one without line breaks. */
  lemma NoBreakConcat(a: string, b: string)
    requires NoBreak(a) && NoBreak(b)
    ensures NoBreak(a + b)
  {
    forall i | 0 <= i < |a + b|
      ensures !IsLineTerminator((a + b)[i])
    {
      if i >= |a| {
        assert (a + b)[i] == b[i - |a|];
      }
    }
  }
}
