/**
 * `analyze_my_json_data`: a schema-free description of a JSON object or
 * list (counts, nested containers, a few sample values), with an optional
 * query that can replace it.
 */
module Analyzer {
  import opened Wrappers
  import opened Sequences
  import opened Strings
  import opened JsonData
  import opened Fetcher

  /** One line of the analysis text; each constructor is one template. */
  datatype Line =
    | KeysHeader(count: nat, keys: seq<string>)       // "My JSON data has {count} keys: {keys}"
    | NestedHeading                                   // blank line, then "Nested structures:"
    | NestedDict(key: string, size: nat)              // "• {key}: dictionary with {size} keys"
    | NestedList(key: string, size: nat)              // "• {key}: list with {size} items"
    | SamplesHeading                                  // blank line, then "Sample values:"
    | SampleScalar(key: string, value: Json)          // "• {key}: {value}"
    | SampleDict(key: string)                         // "• {key}: {...} (dictionary)"
    | SampleList(key: string, size: nat)              // "• {key}: [...] (list with {size} items)"
    | ListHeader(count: nat)                          // "My data is a JSON list with {count} items"
    | ItemsHeading(shown: nat)                        // blank line, then "First {shown} items:"
    | ItemDict(index: nat, size: nat)                 // "• Item {index}: dictionary with {size} keys"
    | ItemList(index: nat, size: nat)                 // "• Item {index}: list with {size} items"
    | ItemScalar(index: nat, typeName: string, value: Json)
                                                      // "• Item {index}: {typeName} = {value}"

  /** How many keys or items the samples look at. */
  const SampleLimit: nat := 5

  // ---------------------------------------------------------------------
  // Nested structures: one line per key whose value is a dict or a list.
  // ---------------------------------------------------------------------

  predicate HasContainerValue(member: (string, Json))
  {
    IsContainer(member.1)
  }

  function NestedLineOf(member: (string, Json)): (line: Line)
    requires HasContainerValue(member)
    ensures line.NestedDict? || line.NestedList?
    ensures line.key == member.0
    ensures line.NestedDict? <==> member.1.Object?
    ensures line.size == Size(member.1)
  {
    var (key, value) := member;
    if value.Object? then NestedDict(key, |value.members|) else NestedList(key, |value.items|)
  }

  /** The nested-structure lines, built in key order. */
  function NestedLines(members: seq<(string, Json)>): seq<Line>
    decreases |members|
  {
    if members == [] then []
    else
      var last := members[|members| - 1];
      NestedLines(members[..|members| - 1]) + if HasContainerValue(last) then [NestedLineOf(last)] else []
  }

  /**
   * There is exactly one nested line per container-valued key, in key order:
   * line j describes the j-th such member.
   */
  lemma {:induction false} NestedLinesFollowKeys(members: seq<(string, Json)>)
    ensures var ps := Positions(members, HasContainerValue);
      && |NestedLines(members)| == |ps|
      && forall j :: 0 <= j < |ps| ==> NestedLines(members)[j] == NestedLineOf(members[ps[j]])
    decreases |members|
  {
    if members != [] {
      var front := members[..|members| - 1];
      var last := members[|members| - 1];
      NestedLinesFollowKeys(front);
      var ps, pf := Positions(members, HasContainerValue), Positions(front, HasContainerValue);
      var lines, lf := NestedLines(members), NestedLines(front);
      assert ps == pf + if HasContainerValue(last) then [|members| - 1] else [];
      assert lines == lf + if HasContainerValue(last) then [NestedLineOf(last)] else [];
      forall j | 0 <= j < |ps| ensures lines[j] == NestedLineOf(members[ps[j]]) {
        if j < |pf| {
          assert front[pf[j]] == members[pf[j]];
        }
      }
    }
  }

  /** The "Nested structures" section is present exactly when some value is a dict or a list. */
  lemma NestedSectionIff(members: seq<(string, Json)>)
    ensures NestedLines(members) != [] <==> exists i :: 0 <= i < |members| && IsContainer(members[i].1)
  {
    NestedLinesFollowKeys(members);
    var ps := Positions(members, HasContainerValue);
    if i :| 0 <= i < |members| && IsContainer(members[i].1) {
      assert HasContainerValue(members[i]);
      assert i in ps;
    }
    if ps != [] {
      assert HasContainerValue(members[ps[0]]);
    }
  }

  /** The loop over all members that collects the nested-structure lines. */
  method CollectNested(members: seq<(string, Json)>) returns (nested: seq<Line>)
    ensures nested == NestedLines(members)
  {
    nested := [];
    var i := 0;
    while i < |members|
      invariant 0 <= i <= |members|
      invariant nested == NestedLines(members[..i])
    {
      var (key, value) := members[i];
      assert members[..i + 1][..i] == members[..i];
      if value.Object? {
        nested := nested + [NestedDict(key, |value.members|)];
      } else if value.Array? {
        nested := nested + [NestedList(key, |value.items|)];
      }
      i := i + 1;
    }
    assert members[..|members|] == members;
  }

  // ---------------------------------------------------------------------
  // Sample values: the first five keys; null values produce no line.
  // ---------------------------------------------------------------------

  predicate IsSampled(member: (string, Json))
  {
    !member.1.Null?
  }

  /** A scalar is shown as it is; a container only as a marker, never expanded. */
  function SampleLineOf(member: (string, Json)): (line: Line)
    requires IsSampled(member)
    ensures (line.SampleScalar? || line.SampleDict? || line.SampleList?) && line.key == member.0
    ensures line.SampleScalar? <==> !IsContainer(member.1)
    ensures line.SampleScalar? ==> line.value == member.1
    ensures line.SampleDict? <==> member.1.Object?
    ensures line.SampleList? ==> member.1.Array? && line.size == |member.1.items|
  {
    var (key, value) := member;
    match value
    case Object(_) => SampleDict(key)
    case Array(items) => SampleList(key, |items|)
    case _ => SampleScalar(key, value)
  }

  /** The sample lines for the given members, in key order. */
  function SampleLines(members: seq<(string, Json)>): seq<Line>
    decreases |members|
  {
    if members == [] then []
    else
      var last := members[|members| - 1];
      SampleLines(members[..|members| - 1]) + if IsSampled(last) then [SampleLineOf(last)] else []
  }

  /** One sample line per non-null member, in key order. */
  lemma {:induction false} SampleLinesFollowKeys(members: seq<(string, Json)>)
    ensures var ps := Positions(members, IsSampled);
      && |SampleLines(members)| == |ps|
      && forall j :: 0 <= j < |ps| ==> SampleLines(members)[j] == SampleLineOf(members[ps[j]])
    decreases |members|
  {
    if members != [] {
      var front := members[..|members| - 1];
      var last := members[|members| - 1];
      SampleLinesFollowKeys(front);
      var ps, pf := Positions(members, IsSampled), Positions(front, IsSampled);
      var lines, lf := SampleLines(members), SampleLines(front);
      assert ps == pf + if IsSampled(last) then [|members| - 1] else [];
      assert lines == lf + if IsSampled(last) then [SampleLineOf(last)] else [];
      forall j | 0 <= j < |ps| ensures lines[j] == SampleLineOf(members[ps[j]]) {
        if j < |pf| {
          assert front[pf[j]] == members[pf[j]];
        }
      }
    }
  }

  /** `line` is the sample line of one of the first five members, whose value is not null. */
  ghost predicate SampledFromFirstFive(line: Line, members: seq<(string, Json)>)
  {
    exists i :: 0 <= i < SampleLimit && i < |members| && !members[i].1.Null? && line == SampleLineOf(members[i])
  }

  /**
   * Samples look at no more than the first five keys: at most five lines,
   * each about one of those keys, and a null value gets none.
   */
  lemma SamplesAtMostFive(members: seq<(string, Json)>)
    ensures var samples := SampleLines(Take(members, SampleLimit));
      && |samples| <= SampleLimit
      && (forall j :: 0 <= j < |samples| ==> SampledFromFirstFive(samples[j], members))
      && (forall i :: 0 <= i < SampleLimit && i < |members| && !members[i].1.Null? ==> SampleLineOf(members[i]) in samples)
  {
    var shown := Take(members, SampleLimit);
    SampleLinesFollowKeys(shown);
    var ps := Positions(shown, IsSampled);
    var samples := SampleLines(shown);
    forall j | 0 <= j < |samples|
      ensures SampledFromFirstFive(samples[j], members)
    {
      var i := ps[j];
      assert shown[i] == members[i] && IsSampled(shown[i]);
      assert 0 <= i < SampleLimit && i < |members| && !members[i].1.Null? && samples[j] == SampleLineOf(members[i]);
    }
    forall i | 0 <= i < SampleLimit && i < |members| && !members[i].1.Null?
      ensures SampleLineOf(members[i]) in samples
    {
      assert shown[i] == members[i] && IsSampled(shown[i]);
      var j :| 0 <= j < |ps| && ps[j] == i;
      assert samples[j] == SampleLineOf(members[i]);
    }
  }

  /** The loop over the first five members that collects the sample lines. */
  method CollectSamples(members: seq<(string, Json)>) returns (samples: seq<Line>)
    ensures samples == SampleLines(Take(members, SampleLimit))
  {
    var shown := Take(members, SampleLimit);
    samples := [];
    var i := 0;
    while i < |shown|
      invariant 0 <= i <= |shown|
      invariant samples == SampleLines(shown[..i])
    {
      var (key, value) := shown[i];
      assert shown[..i + 1][..i] == shown[..i];
      match value {
        case Object(_) =>
          samples := samples + [SampleDict(key)];
        case Array(items) =>
          samples := samples + [SampleList(key, |items|)];
        case Null =>
        case _ =>
          samples := samples + [SampleScalar(key, value)];
      }
      i := i + 1;
    }
    assert shown[..|shown|] == shown;
  }

  // ---------------------------------------------------------------------
  // List items: the first five items, each with its index.
  // ---------------------------------------------------------------------

  /** `type(item).__name__` for a scalar: each JSON scalar kind has its own Python type name. */
  function TypeName(v: Json): (name: string)
    requires !IsContainer(v)
    ensures name == "str" <==> v.Str?
    ensures name == "int" <==> v.Num?
    ensures name == "bool" <==> v.Bool?
    ensures name == "NoneType" <==> v.Null?
  {
    match v
    case Str(_) => "str"
    case Num(_) => "int"
    case Bool(_) => "bool"
    case Null => "NoneType"
  }

  /** A container item shows its size; a scalar its type and value. */
  function ItemLineOf(index: nat, item: Json): (line: Line)
    ensures (line.ItemDict? || line.ItemList? || line.ItemScalar?) && line.index == index
    ensures line.ItemDict? ==> item.Object? && line.size == |item.members|
    ensures line.ItemList? ==> item.Array? && line.size == |item.items|
    ensures line.ItemScalar? <==> !IsContainer(item)
    ensures line.ItemScalar? ==> line.value == item && line.typeName == TypeName(item)
  {
    match item
    case Object(members) => ItemDict(index, |members|)
    case Array(items) => ItemList(index, |items|)
    case _ => ItemScalar(index, TypeName(item), item)
  }

  /** The item lines for the given items, numbered from 0. */
  function ItemLines(items: seq<Json>): seq<Line>
    decreases |items|
  {
    if items == [] then []
    else ItemLines(items[..|items| - 1]) + [ItemLineOf(|items| - 1, items[|items| - 1])]
  }

  /** Line i describes item i, and there is one line per item. */
  lemma {:induction false} ItemLinesIndexed(items: seq<Json>)
    ensures |ItemLines(items)| == |items|
    ensures forall i :: 0 <= i < |items| ==> ItemLines(items)[i] == ItemLineOf(i, items[i])
    decreases |items|
  {
    if items != [] {
      var front := items[..|items| - 1];
      ItemLinesIndexed(front);
      assert forall i :: 0 <= i < |front| ==> front[i] == items[i];
    }
  }

  /** The loop over `enumerate(content[:5])` that collects the item lines. */
  method CollectItems(items: seq<Json>) returns (info: seq<Line>)
    ensures info == ItemLines(Take(items, SampleLimit))
  {
    var shown := Take(items, SampleLimit);
    info := [];
    var i := 0;
    while i < |shown|
      invariant 0 <= i <= |shown|
      invariant info == ItemLines(shown[..i])
    {
      var item := shown[i];
      assert shown[..i + 1][..i] == shown[..i];
      if item.Object? {
        info := info + [ItemDict(i, |item.members|)];
      } else if item.Array? {
        info := info + [ItemList(i, |item.items|)];
      } else {
        info := info + [ItemScalar(i, TypeName(item), item)];
      }
      i := i + 1;
    }
    assert shown[..|shown|] == shown;
  }

  // ---------------------------------------------------------------------
  // The base analysis of an object or a list.
  // ---------------------------------------------------------------------

  /** A section of the text: a heading and its lines, or nothing when there are no lines. */
  function Section(heading: Line, lines: seq<Line>): seq<Line>
  {
    if lines == [] then [] else [heading] + lines
  }

  function ObjectReport(members: seq<(string, Json)>): seq<Line>
  {
    [KeysHeader(|members|, Keys(members))]
      + Section(NestedHeading, NestedLines(members))
      + Section(SamplesHeading, SampleLines(Take(members, SampleLimit)))
  }

  function ListReport(items: seq<Json>): seq<Line>
  {
    var info := ItemLines(Take(items, SampleLimit));
    [ListHeader(|items|)] + if items == [] then [] else [ItemsHeading(|info|)] + info
  }

  /** The base analysis, before any query. */
  function Report(content: Json): seq<Line>
    requires IsContainer(content)
  {
    if content.Object? then ObjectReport(content.members) else ListReport(content.items)
  }

  /** Nested lines only ever describe a container-valued key. */
  lemma {:induction false} NestedLinesKinds(members: seq<(string, Json)>)
    ensures forall l :: l in NestedLines(members) ==> l.NestedDict? || l.NestedList?
    ensures |NestedLines(members)| <= |members|
    decreases |members|
  {
    if members != [] {
      NestedLinesKinds(members[..|members| - 1]);
    }
  }

  /** Sample lines only ever are sample values. */
  lemma {:induction false} SampleLinesKinds(members: seq<(string, Json)>)
    ensures forall l :: l in SampleLines(members) ==> l.SampleScalar? || l.SampleDict? || l.SampleList?
    ensures |SampleLines(members)| <= |members|
    decreases |members|
  {
    if members != [] {
      SampleLinesKinds(members[..|members| - 1]);
    }
  }

  /**
   * An object's analysis opens with its key count and every key in order;
   * the nested section appears exactly when some value is a container, and
   * the text has at most one line per key plus five samples and three more.
   */
  lemma ObjectReportShape(members: seq<(string, Json)>)
    ensures var r := ObjectReport(members);
      && r[0] == KeysHeader(|members|, Keys(members))
      && (NestedHeading in r <==> exists i :: 0 <= i < |members| && IsContainer(members[i].1))
      && |r| <= 3 + |members| + SampleLimit
  {
    var nested := NestedLines(members);
    var samples := SampleLines(Take(members, SampleLimit));
    NestedLinesKinds(members);
    SampleLinesKinds(Take(members, SampleLimit));
    assert nested != [] <==> exists i :: 0 <= i < |members| && IsContainer(members[i].1) by {
      NestedSectionIff(members);
    }
    var a, b, c := [KeysHeader(|members|, Keys(members))], Section(NestedHeading, nested), Section(SamplesHeading, samples);
    assert ObjectReport(members) == a + b + c;
    assert NestedHeading !in a && NestedHeading !in c;
    assert NestedHeading in b <==> nested != [];
  }

  /** The object {"a": 1, "b": {"c": 2}}: two keys, one nested dict, two samples. */
  lemma ExampleObjectReport()
    ensures ObjectReport([("a", Num(1)), ("b", Object([("c", Num(2))]))]) ==
      [KeysHeader(2, ["a", "b"]), NestedHeading, NestedDict("b", 1),
       SamplesHeading, SampleScalar("a", Num(1)), SampleDict("b")]
  {
    var members := [("a", Num(1)), ("b", Object([("c", Num(2))]))];
    assert members[..1] == [("a", Num(1))] && members[..1][..0] == [];
    assert Take(members, SampleLimit) == members;
    assert NestedLines(members) == [NestedDict("b", 1)];
    assert SampleLines(members) == [SampleScalar("a", Num(1)), SampleDict("b")];
    assert Keys(members) == ["a", "b"];
    assert ObjectReport(members) == [KeysHeader(2, ["a", "b"])] + [NestedHeading, NestedDict("b", 1)]
      + [SamplesHeading, SampleScalar("a", Num(1)), SampleDict("b")];
  }

  /**
   * A list's analysis gives its item count, then, unless the list is empty,
   * the first five items (or fewer) each with its index 0..4.
   */
  lemma ListReportShape(items: seq<Json>)
    ensures var r := ListReport(items);
      var shown := if |items| < SampleLimit then |items| else SampleLimit;
      && r[0] == ListHeader(|items|)
      && (items == [] ==> r == [ListHeader(0)])
      && (items != [] ==>
            && |r| == 2 + shown
            && r[1] == ItemsHeading(shown)
            && forall i :: 0 <= i < shown ==> r[2 + i] == ItemLineOf(i, items[i]))
  {
    var t := Take(items, SampleLimit);
    ItemLinesIndexed(t);
    assert forall i :: 0 <= i < |t| ==> t[i] == items[i];
  }

  /** The header, then the nested section and the sample section when they are not empty. */
  method DescribeObject(members: seq<(string, Json)>) returns (analysis: seq<Line>)
    ensures analysis == ObjectReport(members)
  {
    analysis := [KeysHeader(|members|, Keys(members))];
    var nested := CollectNested(members);
    if nested != [] {
      analysis := analysis + [NestedHeading] + nested;
    }
    assert analysis == [KeysHeader(|members|, Keys(members))] + Section(NestedHeading, nested);
    var samples := CollectSamples(members);
    if samples != [] {
      analysis := analysis + [SamplesHeading] + samples;
    }
    assert analysis == [KeysHeader(|members|, Keys(members))] + Section(NestedHeading, nested)
      + Section(SamplesHeading, samples);
  }

  /** The item count, then the first items when the list is not empty. */
  method DescribeList(items: seq<Json>) returns (analysis: seq<Line>)
    ensures analysis == ListReport(items)
  {
    analysis := [ListHeader(|items|)];
    if items != [] {
      var info := CollectItems(items);
      analysis := analysis + [ItemsHeading(|info|)] + info;
    }
  }

  /** The base analysis of the object or list, assembled from the three loops. */
  method DescribeStructure(content: Json) returns (analysis: seq<Line>)
    requires IsContainer(content)
    ensures analysis == Report(content)
  {
    if content.Object? {
      analysis := DescribeObject(content.members);
    } else {
      analysis := DescribeList(content.items);
    }
  }

  // ---------------------------------------------------------------------
  // The query, and the tool as a whole.
  // ---------------------------------------------------------------------

  /** What the tool returns. */
  datatype Analysis =
    | Analysed(lines: seq<Line>)      // the base analysis, lines joined by newlines
    | KeyList(keys: seq<string>)      // "My JSON data keys: {keys}"
    | KeyCountOnly(count: nat)        // "Number of keys in my data: {count}"
    | ItemCountOnly(count: nat)       // "Number of items in my list: {count}"
    | SampleDump(text: string)        // "Sample of my data: {text}"
    | NotJsonFormat                   // "My data is not in JSON format"
    | NotStructured                   // "My fetched data is not in JSON format"
    | FetchFailed(error: FetchError)  // "Error fetching my data: {error}"
    | QueryNameError                  // the NameError raised for the unbound `question_lower`

  /** `if query:` — no query, or the empty string, asks for nothing. */
  predicate IsFalsy(query: Option<string>)
  {
    query.None? || query.value == ""
  }

  /**
   * The query as written: "key" on an object gives the key list, "key" on a
   * list the base analysis; any other non-empty query evaluates the unbound
   * name `question_lower` and fails.
   */
  function ApplyQuery(query: Option<string>, content: Json, analysis: seq<Line>): (r: Analysis)
    requires IsContainer(content)
    ensures r.Analysed? || r.KeyList? || r.QueryNameError?
    ensures r.Analysed? ==> r.lines == analysis
    ensures r.KeyList? ==> content.Object? && r.keys == Keys(content.members)
    ensures IsFalsy(query) ==> r == Analysed(analysis)
  {
    if IsFalsy(query) then Analysed(analysis)
    else
      var q := Lower(query.value);
      if Contains(q, "key") then
        if content.Object? then KeyList(Keys(content.members)) else Analysed(analysis)
      else
        QueryNameError
  }

  /**
   * As written, a query never reaches the count or sample answers: whatever
   * it asks, the result is the analysis, the key list, or the NameError, and
   * the NameError comes exactly from a non-empty query without "key".
   */
  lemma CountAndSampleUnreachable(query: Option<string>, content: Json, analysis: seq<Line>)
    requires IsContainer(content)
    ensures var r := ApplyQuery(query, content, analysis);
      && (r.Analysed? || r.KeyList? || r.QueryNameError?)
      && (r.QueryNameError? <==> !IsFalsy(query) && !Occurs(Lower(query.value), "key"))
      && (r.KeyList? ==> content.Object? && r.keys == Keys(content.members))
      && (IsFalsy(query) ==> r == Analysed(analysis))
      && (!IsFalsy(query) && Occurs(Lower(query.value), "key") ==>
        r == if content.Object? then KeyList(Keys(content.members)) else Analysed(analysis))
  {
    if !IsFalsy(query) {
      var q := Lower(query.value);
      ContainsIffOccurs(q, "key");
    }
  }

  /** "count" mentions no "key", so the count query fails as written. */
  lemma CountQueryFails(members: seq<(string, Json)>, analysis: seq<Line>, dumped: string)
    ensures ApplyQuery(Some("count"), Object(members), analysis) == QueryNameError
    ensures ApplyQueryIntended(Some("count"), Object(members), analysis, dumped) == KeyCountOnly(|members|)
  {
    var q := Lower("count");
    assert q == "count";
    assert !Contains(q, "key") by {
      ContainsIffOccurs(q, "key");
      forall i ensures !OccursAt(q, "key", i) {
        if 0 <= i && i + 3 <= |q| {
          assert q[i..i + 3][0] == q[i];
          assert q[i] != 'k';
        }
      }
    }
    assert Contains(q, "count") by {
      ContainsIffOccurs(q, "count");
      assert q[0..5] == "count";
      assert OccursAt(q, "count", 0);
      assert Occurs(q, "count");
    }
  }

  /** How many characters of the serialized JSON the sample answer keeps. */
  const ExcerptLimit: nat := 500

  /** `dumped[:500] + "..."`. */
  function Excerpt(dumped: string): (text: string)
    ensures 3 <= |text| <= ExcerptLimit + 3
    ensures text[..|text| - 3] <= dumped && text[|text| - 3..] == "..."
    ensures |dumped| >= ExcerptLimit ==> |text| == ExcerptLimit + 3
    ensures |dumped| < ExcerptLimit ==> text == dumped + "..."
  {
    Take(dumped, ExcerptLimit) + "..."
  }

  /** A non-empty query whose lower-cased text mentions `word`. */
  ghost predicate QueryMentions(query: Option<string>, word: string)
  {
    !IsFalsy(query) && Occurs(Lower(query.value), word)
  }

  /**
   * The query as evidently intended (`"keys" in query_lower`): key list,
   * then count or length, then example or sample, otherwise the analysis.
   * `dumped` is the indented JSON serialization of the content.
   */
  function ApplyQueryIntended(query: Option<string>, content: Json, analysis: seq<Line>, dumped: string): (r: Analysis)
    requires IsContainer(content)
    ensures !r.QueryNameError?
    ensures r.KeyList? ==> content.Object? && r.keys == Keys(content.members)
    ensures r.KeyCountOnly? ==> content.Object? && r.count == Size(content)
    ensures r.ItemCountOnly? ==> content.Array? && r.count == Size(content)
    ensures r.SampleDump? ==> |r.text| <= ExcerptLimit + 3
    ensures IsFalsy(query) ==> r == Analysed(analysis)
    ensures QueryMentions(query, "key") ==>
      r == if content.Object? then KeyList(Keys(content.members)) else Analysed(analysis)
    ensures
      && !IsFalsy(query) && !QueryMentions(query, "key")
      && (QueryMentions(query, "count") || QueryMentions(query, "length"))
      ==> r == if content.Object? then KeyCountOnly(|content.members|) else ItemCountOnly(|content.items|)
    ensures
      && !IsFalsy(query) && !QueryMentions(query, "key")
      && !QueryMentions(query, "count") && !QueryMentions(query, "length")
      && (QueryMentions(query, "example") || QueryMentions(query, "sample"))
      ==> r == SampleDump(Excerpt(dumped))
    ensures
      && !IsFalsy(query) && !QueryMentions(query, "key")
      && !QueryMentions(query, "count") && !QueryMentions(query, "length")
      && !QueryMentions(query, "example") && !QueryMentions(query, "sample")
      ==> r == Analysed(analysis)
  {
    if IsFalsy(query) then Analysed(analysis)
    else
      var q := Lower(query.value);
      ContainsIffOccurs(q, "key");
      ContainsIffOccurs(q, "keys");
      PrefixOccurs(q, "key", "s");
      assert "key" + "s" == "keys";
      ContainsIffOccurs(q, "count");
      ContainsIffOccurs(q, "length");
      ContainsIffOccurs(q, "example");
      ContainsIffOccurs(q, "sample");
      if Contains(q, "key") || Contains(q, "keys") then
        if content.Object? then KeyList(Keys(content.members)) else Analysed(analysis)
      else if Contains(q, "count") || Contains(q, "length") then
        if content.Object? then KeyCountOnly(|content.members|) else ItemCountOnly(|content.items|)
      else if Contains(q, "example") || Contains(q, "sample") then
        SampleDump(Excerpt(dumped))
      else
        Analysed(analysis)
  }

  /** Wherever the code as written does not fail, the intended query agrees with it. */
  lemma IntendedAgreesWhereDefined(query: Option<string>, content: Json, analysis: seq<Line>, dumped: string)
    requires IsContainer(content)
    requires !ApplyQuery(query, content, analysis).QueryNameError?
    ensures ApplyQueryIntended(query, content, analysis, dumped) == ApplyQuery(query, content, analysis)
  {
  }

  /**
   * `analyze_my_json_data`: a failed fetch and a non-JSON body end the tool
   * before any analysis, and so does a JSON scalar; an object or a list is
   * analysed and then the query is applied as written.
   */
  method AnalyzeMyJsonData(target: string, exchange: Exchange, query: Option<string>) returns (out: Analysis)
    ensures Fetch(target, exchange).Err? ==> out == FetchFailed(Fetch(target, exchange).error)
    ensures Fetch(target, exchange).Ok? ==>
      var body := Fetch(target, exchange).value.body;
      && (body.Text? ==> out == NotJsonFormat)
      && (body.JsonBody? && !IsContainer(body.value) ==> out == NotStructured)
      && (body.JsonBody? && IsContainer(body.value) ==> out == ApplyQuery(query, body.value, Report(body.value)))
  {
    match Fetch(target, exchange)
    case Err(e) =>
      out := FetchFailed(e);
    case Ok(data) =>
      match data.body
      case Text(_) =>
        out := NotJsonFormat;
      case JsonBody(content) =>
        if !IsContainer(content) {
          out := NotStructured;
        } else {
          var analysis := DescribeStructure(content);
          out := ApplyQuery(query, content, analysis);
        }
  }
}
