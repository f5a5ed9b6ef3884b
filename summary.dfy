/**
 * `get_my_data_summary`: a fixed template chosen only by the shape of the
 * body, grown line by line.
 */
module Summary {
  import opened Wrappers
  import opened Sequences
  import opened JsonData
  import opened Fetcher

  /** One line of the summary; each constructor is one template. */
  datatype SummaryLine =
    | FetchedSuccessfully              // "✅ Data fetched successfully!"
    | Fetched                          // "✅ Data fetched!"
    | UrlLine(url: string)             // "• URL: {url}"
    | StatusLine(code: int)            // "• Status: {code}"
    | ContentTypeLine(ct: string)      // "• Content Type: {ct}"
    | TypeLine(ct: string)             // "• Type: {ct}"
    | JsonKeysLine(count: nat)         // "• JSON Keys: {count}"
    | FirstKeysLine(keys: seq<string>) // "• First 5 keys: {keys}"
    | ListItemsLine(count: nat)        // "• List Items: {count}"
    | LengthLine(chars: nat)           // "• Length: {chars} characters"

  /** The summary text, or the error text "❌ Error fetching my data: {error}". */
  datatype SummaryText = Lines(lines: seq<SummaryLine>) | SummaryFailed(error: FetchError)

  /** How many keys the summary of an object lists. */
  const FirstKeysLimit: nat := 5

  /**
   * The summary of a successful fetch. Every summary names the target and
   * the status. An object adds its key count and, when it has keys, its
   * first five keys; a list adds its item count; a JSON scalar adds nothing
   * more; text adds its character length.
   */
  ghost predicate SummaryOf(lines: seq<SummaryLine>, data: Data)
  {
    && |lines| >= 4
    && lines[1] == UrlLine(data.url) && lines[2] == StatusLine(data.status)
    && (lines[0] == FetchedSuccessfully <==> data.body.JsonBody? && IsContainer(data.body.value))
    && (lines[0] == Fetched <==> !(data.body.JsonBody? && IsContainer(data.body.value)))
    && (data.body.JsonBody? && data.body.value.Object? ==>
          var members := data.body.value.members;
          && |lines| == (if members == [] then 5 else 6)
          && lines[3] == ContentTypeLine(data.contentType)
          && lines[4] == JsonKeysLine(|members|)
          && (members != [] ==> lines[5] == FirstKeysLine(Take(Keys(members), FirstKeysLimit))))
    && (data.body.JsonBody? && data.body.value.Array? ==>
          && |lines| == 5
          && lines[3] == ContentTypeLine(data.contentType)
          && lines[4] == ListItemsLine(|data.body.value.items|))
    && (data.body.JsonBody? && !IsContainer(data.body.value) ==>
          |lines| == 4 && lines[3] == TypeLine(data.contentType))
    && (data.body.Text? ==>
          && |lines| == 5
          && lines[3] == TypeLine(data.contentType)
          && lines[4] == LengthLine(|data.body.text|))
  }

  /** The template for a successful fetch, grown one line at a time. */
  method Summarize(data: Data) returns (lines: seq<SummaryLine>)
    ensures SummaryOf(lines, data)
  {
    match data.body
    case JsonBody(Object(members)) =>
      lines := [FetchedSuccessfully];
      lines := lines + [UrlLine(data.url)];
      lines := lines + [StatusLine(data.status)];
      lines := lines + [ContentTypeLine(data.contentType)];
      lines := lines + [JsonKeysLine(|members|)];
      if members != [] {
        var keys := Take(Keys(members), FirstKeysLimit);
        lines := lines + [FirstKeysLine(keys)];
      }
    case JsonBody(Array(items)) =>
      lines := [FetchedSuccessfully];
      lines := lines + [UrlLine(data.url)];
      lines := lines + [StatusLine(data.status)];
      lines := lines + [ContentTypeLine(data.contentType)];
      lines := lines + [ListItemsLine(|items|)];
    case JsonBody(_) =>
      lines := [Fetched, UrlLine(data.url), StatusLine(data.status), TypeLine(data.contentType)];
    case Text(text) =>
      lines := [Fetched, UrlLine(data.url), StatusLine(data.status), TypeLine(data.contentType), LengthLine(|text|)];
  }

  /** `get_my_data_summary`: the summary of the fetched data, or the fetch error. */
  method GetMyDataSummary(target: string, exchange: Exchange) returns (summary: SummaryText)
    ensures Fetch(target, exchange).Err? ==> summary == SummaryFailed(Fetch(target, exchange).error)
    ensures Fetch(target, exchange).Ok? ==>
      summary.Lines? && SummaryOf(summary.lines, Fetch(target, exchange).value)
  {
    match Fetch(target, exchange)
    case Err(e) =>
      summary := SummaryFailed(e);
    case Ok(data) =>
      var lines := Summarize(data);
      summary := Lines(lines);
  }

  /** The keys an object's summary lists are its first keys, in order, and never more than five. */
  lemma FirstKeysArePrefix(members: seq<(string, Json)>)
    ensures var keys := Take(Keys(members), FirstKeysLimit);
      && |keys| <= FirstKeysLimit
      && (|members| <= FirstKeysLimit ==> keys == Keys(members))
      && forall i :: 0 <= i < |keys| ==> keys[i] == members[i].0
  {
  }
}
