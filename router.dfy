/**
 * `ask_about_my_data`: a free-text question is lower-cased and routed by
 * keyword to one answer; the first matching branch wins.
 */
module Router {
  import opened Wrappers
  import opened Strings
  import opened JsonData
  import opened Fetcher

  /** One constructor per answer template of the tool. */
  datatype Answer =
    | StatusAnswer(code: int)                        // "My data URL returned status code {code}"
    | ContentTypeAnswer(contentType: string)         // "The content type of my data is: {contentType}"
    | CharCount(length: nat)                         // "My data content length is {length} characters"
    | TopLevelKeyCount(count: nat)                   // "My JSON data has {count} top-level keys"
    | ListItemCount(count: nat)                      // "My data list has {count} items"
    | HeadersAnswer(headers: map<string, string>)    // "Response headers from my data: {headers as JSON}"
    | KeysAnswer(keys: seq<string>)                  // "My JSON data has these keys: {keys}"
    | SourceAnswer(url: string)                      // "Data is fetched from: {url}"
    | GenericSummary(url: string, status: int, contentType: string)
                                                     // "My data from {url}. Status: ... Ask me about ..."
    | FetchFailed(error: FetchError)                 // "Error fetching my data: {error}"

  /**
   * The routing rules as an ordered table: each topic, its keywords, and the
   * order in which the topics are tried.
   */
  datatype Topic = StatusTopic | TypeTopic | LengthTopic | HeadersTopic | KeysTopic | UrlTopic

  const TopicOrder: seq<Topic> := [StatusTopic, TypeTopic, LengthTopic, HeadersTopic, KeysTopic, UrlTopic]

  function Keywords(t: Topic): seq<string>
  {
    match t
    case StatusTopic => ["status", "code"]
    case TypeTopic => ["type", "content type"]
    case LengthTopic => ["length", "size"]
    case HeadersTopic => ["headers"]
    case KeysTopic => ["keys"]
    case UrlTopic => ["url", "source"]
  }

  /** Some keyword of `words` occurs in the (lower-cased) question. */
  function MentionsAny(question: string, words: seq<string>): bool
  {
    if words == [] then false
    else Contains(question, words[0]) || MentionsAny(question, words[1..])
  }

  /** A two-keyword row fires when either keyword occurs. */
  lemma {:induction false} MentionsPair(question: string, first: string, second: string)
    ensures MentionsAny(question, [first, second]) <==> Contains(question, first) || Contains(question, second)
  {
    assert [first, second][1..] == [second] && [second][1..] == [];
    assert MentionsAny(question, [second]) == (Contains(question, second) || MentionsAny(question, []));
  }

  /** What each row of the keyword table asks of the question. */
  lemma {:induction false} KeywordRows(question: string)
    ensures MentionsAny(question, Keywords(StatusTopic)) <==> Contains(question, "status") || Contains(question, "code")
    ensures MentionsAny(question, Keywords(TypeTopic)) <==> Contains(question, "type") || Contains(question, "content type")
    ensures MentionsAny(question, Keywords(LengthTopic)) <==> Contains(question, "length") || Contains(question, "size")
    ensures MentionsAny(question, Keywords(HeadersTopic)) <==> Contains(question, "headers")
    ensures MentionsAny(question, Keywords(KeysTopic)) <==> Contains(question, "keys")
    ensures MentionsAny(question, Keywords(UrlTopic)) <==> Contains(question, "url") || Contains(question, "source")
  {
    MentionsPair(question, "status", "code");
    MentionsPair(question, "type", "content type");
    MentionsPair(question, "length", "size");
    MentionsPair(question, "url", "source");
    assert ["headers"][1..] == [] && ["keys"][1..] == [];
  }

  /** A topic's rule fires: a keyword occurs, and for keys the body is a JSON object. */
  predicate Applies(t: Topic, question: string, body: Body)
  {
    MentionsAny(question, Keywords(t)) && (t == KeysTopic ==> body.JsonBody? && body.value.Object?)
  }

  /** The first topic of `topics` whose rule fires. */
  function FirstApplicable(topics: seq<Topic>, question: string, body: Body): Option<Topic>
  {
    if topics == [] then None
    else if Applies(topics[0], question, body) then Some(topics[0])
    else FirstApplicable(topics[1..], question, body)
  }

  /**
   * The search finds nothing exactly when no rule fires, and what it finds
   * fires while every topic before it does not.
   */
  lemma {:induction false} FirstApplicableIsFirst(topics: seq<Topic>, question: string, body: Body)
    ensures var r := FirstApplicable(topics, question, body);
      && (r.None? <==> forall j :: 0 <= j < |topics| ==> !Applies(topics[j], question, body))
      && (r.Some? ==>
        exists k :: 0 <= k < |topics| && topics[k] == r.value && Applies(topics[k], question, body) &&
          forall j :: 0 <= j < k ==> !Applies(topics[j], question, body))
  {
    if topics != [] && !Applies(topics[0], question, body) {
      var rest := topics[1..];
      FirstApplicableIsFirst(rest, question, body);
      assert forall j :: 1 <= j < |topics| ==> topics[j] == rest[j - 1];
      var r := FirstApplicable(rest, question, body);
      if r.Some? {
        var k :| 0 <= k < |rest| && rest[k] == r.value && Applies(rest[k], question, body) &&
          forall j :: 0 <= j < k ==> !Applies(rest[j], question, body);
        assert topics[k + 1] == r.value;
        assert forall j :: 0 <= j < k + 1 ==> !Applies(topics[j], question, body) by {
          forall j | 0 <= j < k + 1 ensures !Applies(topics[j], question, body) {
            if j > 0 { assert topics[j] == rest[j - 1]; }
          }
        }
      }
    }
  }

  /** The topic an answer belongs to; the generic summary and a fetch failure have none. */
  function TopicOf(a: Answer): Option<Topic>
  {
    match a
    case StatusAnswer(_) => Some(StatusTopic)
    case ContentTypeAnswer(_) => Some(TypeTopic)
    case CharCount(_) => Some(LengthTopic)
    case TopLevelKeyCount(_) => Some(LengthTopic)
    case ListItemCount(_) => Some(LengthTopic)
    case HeadersAnswer(_) => Some(HeadersTopic)
    case KeysAnswer(_) => Some(KeysTopic)
    case SourceAnswer(_) => Some(UrlTopic)
    case GenericSummary(_, _, _) => None
    case FetchFailed(_) => None
  }

  /** A JSON number, boolean or null: the length branch has nothing to report for it. */
  predicate HasNoLength(body: Body)
  {
    body.JsonBody? && (body.value.Num? || body.value.Bool? || body.value.Null?)
  }

  /**
   * The length branch: characters of a `str` (text, or a JSON string), keys of
   * a dict, items of a list; nothing matches for other values, and the tool
   * then falls through to the generic summary.
   */
  function LengthAnswer(data: Data): (a: Answer)
    ensures a.GenericSummary? <==> HasNoLength(data.body)
    ensures a.GenericSummary? ==> a == GenericSummary(data.url, data.status, data.contentType)
    ensures !a.GenericSummary? ==> TopicOf(a) == Some(LengthTopic)
  {
    match data.body
    case Text(t) => CharCount(|t|)
    case JsonBody(Str(s)) => CharCount(|s|)
    case JsonBody(Object(members)) => TopLevelKeyCount(|members|)
    case JsonBody(Array(items)) => ListItemCount(|items|)
    case _ => GenericSummary(data.url, data.status, data.contentType)
  }

  /**
   * The if/elif chain of the tool, over the lower-cased question and the
   * record of a successful fetch.
   */
  function Dispatch(q: string, data: Data): (a: Answer)
    ensures !a.FetchFailed?
    ensures a.StatusAnswer? ==> a.code == data.status
    ensures a.ContentTypeAnswer? ==> a.contentType == data.contentType
    ensures a.HeadersAnswer? ==> a.headers == data.headers
    ensures a.KeysAnswer? ==>
      data.body.JsonBody? && data.body.value.Object? && a.keys == Keys(data.body.value.members)
    ensures a.SourceAnswer? ==> a.url == data.url
    ensures a.GenericSummary? ==> a == GenericSummary(data.url, data.status, data.contentType)
  {
    var content := data.body;
    if Contains(q, "status") || Contains(q, "code") then
      StatusAnswer(data.status)
    else if Contains(q, "type") || Contains(q, "content type") then
      ContentTypeAnswer(data.contentType)
    else if Contains(q, "length") || Contains(q, "size") then
      LengthAnswer(data)
    else if Contains(q, "headers") then
      HeadersAnswer(data.headers)
    else if Contains(q, "keys") && content.JsonBody? && content.value.Object? then
      KeysAnswer(Keys(content.value.members))
    else if Contains(q, "url") || Contains(q, "source") then
      SourceAnswer(data.url)
    else
      GenericSummary(data.url, data.status, data.contentType)
  }

  /** The question is lower-cased, then dispatched. */
  function Route(question: string, data: Data): (a: Answer)
    ensures !a.FetchFailed?
    ensures a.StatusAnswer? ==> a.code == data.status
    ensures a.ContentTypeAnswer? ==> a.contentType == data.contentType
    ensures a.HeadersAnswer? ==> a.headers == data.headers
    ensures a.KeysAnswer? ==>
      data.body.JsonBody? && data.body.value.Object? && a.keys == Keys(data.body.value.members)
    ensures a.SourceAnswer? ==> a.url == data.url
    ensures a.GenericSummary? ==> a == GenericSummary(data.url, data.status, data.contentType)
  {
    Dispatch(Lower(question), data)
  }

  /** One step of the search: the head is tried before the rest. */
  lemma {:induction false} FirstApplicableCons(t: Topic, rest: seq<Topic>, q: string, b: Body)
    ensures FirstApplicable([t] + rest, q, b) ==
      if Applies(t, q, b) then Some(t) else FirstApplicable(rest, q, b)
  {
    assert ([t] + rest)[0] == t && ([t] + rest)[1..] == rest;
  }

  /** Searching the table in order, spelled out topic by topic. */
  lemma {:induction false} TopicOrderSearch(q: string, b: Body)
    ensures FirstApplicable(TopicOrder, q, b) ==
      if Applies(StatusTopic, q, b) then Some(StatusTopic)
      else if Applies(TypeTopic, q, b) then Some(TypeTopic)
      else if Applies(LengthTopic, q, b) then Some(LengthTopic)
      else if Applies(HeadersTopic, q, b) then Some(HeadersTopic)
      else if Applies(KeysTopic, q, b) then Some(KeysTopic)
      else if Applies(UrlTopic, q, b) then Some(UrlTopic)
      else None
  {
    var rest5: seq<Topic> := [UrlTopic] + [];
    var rest4 := [KeysTopic] + rest5;
    var rest3 := [HeadersTopic] + rest4;
    var rest2 := [LengthTopic] + rest3;
    var rest1 := [TypeTopic] + rest2;
    FirstApplicableCons(UrlTopic, [], q, b);
    FirstApplicableCons(KeysTopic, rest5, q, b);
    FirstApplicableCons(HeadersTopic, rest4, q, b);
    FirstApplicableCons(LengthTopic, rest3, q, b);
    FirstApplicableCons(TypeTopic, rest2, q, b);
    FirstApplicableCons(StatusTopic, rest1, q, b);
    assert TopicOrder == [StatusTopic] + rest1;
  }

  /**
   * The chain is the rule table tried in order: the answer belongs to the
   * first topic whose rule fires, and the generic summary comes back exactly
   * when no rule fires or the length rule fires on a body without a length.
   */
  lemma {:induction false} DispatchIsFirstMatch(q: string, data: Data)
    ensures var t := FirstApplicable(TopicOrder, q, data.body);
      var a := Dispatch(q, data);
      && (a.GenericSummary? <==> t.None? || (t == Some(LengthTopic) && HasNoLength(data.body)))
      && (!a.GenericSummary? ==> TopicOf(a) == t)
  {
    KeywordRows(q);
    TopicOrderSearch(q, data.body);
  }

  /** The same, for the question as asked. */
  lemma {:induction false} RouteIsFirstMatch(question: string, data: Data)
    ensures var t := FirstApplicable(TopicOrder, Lower(question), data.body);
      var a := Route(question, data);
      && (a.GenericSummary? <==> t.None? || (t == Some(LengthTopic) && HasNoLength(data.body)))
      && (!a.GenericSummary? ==> TopicOf(a) == t)
  {
    DispatchIsFirstMatch(Lower(question), data);
  }

  /**
   * Precedence: when two rules fire, the answer never belongs to the later
   * one. A question naming both "status" and "headers" gets the status.
   */
  lemma {:induction false} EarlierTopicWins(question: string, data: Data, i: nat, j: nat)
    requires i < j < |TopicOrder|
    requires Applies(TopicOrder[i], Lower(question), data.body)
    requires Applies(TopicOrder[j], Lower(question), data.body)
    ensures TopicOf(Route(question, data)) != Some(TopicOrder[j])
  {
    RouteIsFirstMatch(question, data);
    FirstApplicableIsFirst(TopicOrder, Lower(question), data.body);
  }

  /** The question "status and headers?" is answered with the status code. */
  lemma {:induction false} StatusBeforeHeaders(question: string, data: Data)
    requires Contains(Lower(question), "status") && Contains(Lower(question), "headers")
    ensures Route(question, data) == StatusAnswer(data.status)
  {
  }

  /**
   * A length question reports characters for text (and for a JSON string),
   * top-level keys for an object and items for an array; on a JSON number,
   * boolean or null it gets the generic summary.
   */
  lemma {:induction false} LengthAnswerBySize(question: string, data: Data)
    requires FirstApplicable(TopicOrder, Lower(question), data.body) == Some(LengthTopic)
    ensures data.body.Text? ==> Route(question, data) == CharCount(|data.body.text|)
    ensures data.body.JsonBody? && data.body.value.Str? ==> Route(question, data) == CharCount(|data.body.value.str|)
    ensures data.body.JsonBody? && data.body.value.Object? ==>
      Route(question, data) == TopLevelKeyCount(|data.body.value.members|)
    ensures data.body.JsonBody? && data.body.value.Array? ==>
      Route(question, data) == ListItemCount(|data.body.value.items|)
    ensures HasNoLength(data.body) ==> Route(question, data) == GenericSummary(data.url, data.status, data.contentType)
  {
    RouteIsFirstMatch(question, data);
    FirstApplicableIsFirst(TopicOrder, Lower(question), data.body);
  }

  /** Routing ignores letter case: a lower-cased question gets the same answer. */
  lemma {:induction false} RouteIgnoresCase(question: string, data: Data)
    ensures Route(Lower(question), data) == Route(question, data)
  {
    LowerIdempotent(question);
  }

  /** `ask_about_my_data`: a failed fetch is reported, otherwise the question is routed. */
  function AskAboutMyData(target: string, exchange: Exchange, question: string): (a: Answer)
    ensures Fetch(target, exchange).Err? ==> a == FetchFailed(Fetch(target, exchange).error)
    ensures Fetch(target, exchange).Ok? ==>
      && !a.FetchFailed?
      && (a.SourceAnswer? || a.GenericSummary? ==> a.url == target)
      && (a.StatusAnswer? ==> a.code == exchange.response.status && IsSuccess(a.code))
      && a == Route(question, Fetch(target, exchange).value)
  {
    match Fetch(target, exchange)
    case Err(e) => FetchFailed(e)
    case Ok(data) => Route(question, data)
  }
}
