# my-data-fetcher: response normalization and structural analysis

A Dafny model of the post-fetch logic of `server.py`, a FastMCP server with four tools
(`get_my_data`, `ask_about_my_data`, `analyze_my_json_data` and `get_my_data_summary`).
Each tool fetches one fixed URL, then makes the same decisions over the response:

- It takes the content type from the `content-type` header, up to the first `;`.
- It decodes the body as JSON only when that content type contains `application/json`.
  Otherwise it keeps the raw text.
- It then answers a question, analyses the JSON structure, or formats a summary.

The four copies of the fetch-and-normalize code become one function, `Fetcher.Fetch`.
It takes the outcome of the GET (`Exchange`) as an input. The fixed URL is the parameter
`target`. Each tool's answer is a datatype with one constructor per f-string template of
the source. The constructor carries exactly the values the template interpolates.

Files:

- `wrappers.dfy`: `Option` and `Result`.
- `sequences.dfy`: the slice `s[:n]` (`Take`) and the in-order filter positions (`Positions`).
- `strings.dfy`: Python's `sub in s`, `str.lower()` and `s.split(';')[0]`.
- `json_data.dfy`: the decoded payload (`Json`, `Body`) and `list(d.keys())`.
- `fetch.dfy`: the status check, content type, normalization, and `get_my_data`.
- `router.dfy`: `ask_about_my_data`, as an if/elif chain and as an ordered rule table.
- `analyzer.dfy`: `analyze_my_json_data`. Its three loops are methods proved against
  recursive specification functions.
- `summary.dfy`: `get_my_data_summary`.

The model follows the code in these choices:

- A body under a JSON content type that does not decode is a fetch error. It never falls back to text.
- The content-type answer reports the content type as it is, including `""`. The `'unknown'` default
  in `server.py:102` never applies, because the key is always present.
- A length question on a JSON *string* body reports its character count, because the decoded value
  is a Python `str` (`server.py:106`). Only a JSON number, boolean or null gets the generic summary.
- A failed fetch in `ask_about_my_data` gives "Error fetching my data: ..." with the exception's text.
  The message adds nothing to that text: unlike `get_my_data`, it does not tell a timeout apart and
  does not add the target itself.
- In `analyze_my_json_data`, only the key-list query works. A "key" query on a list falls through to
  the base analysis. Any other non-empty query raises `NameError` at `server.py:207` (see Findings).

## Model

| member | source | states |
|---|---|---|
| `Strings.ContainsIffOccurs` | server.py:37 | `sub in s` holds exactly when `sub` occurs at some position of `s` |
| `Strings.Lower` | server.py:96 | lower-casing keeps the length and lowers each character |
| `Strings.LowerIdempotent` | server.py:96 | lower-casing twice is the same as lower-casing once |
| `Strings.BeforeFirst` | server.py:33 | the result is a prefix of the value with no `;`, followed in the value by `;` or by nothing; it is the whole value when there is no `;` |
| `Fetcher.ContentTypeOf` | server.py:33 | the content type is the header value up to, and not including, the first `;`; the whole value when there is none; `""` when the header is absent; no trimming |
| `Fetcher.Normalize` | server.py:36-40 | the body is JSON exactly when the content type contains `application/json` and the text decodes; otherwise it is the raw text, unchanged; a JSON type whose text does not decode is `InvalidJson` |
| `Fetcher.Fetch` | server.py:29-40 | a non-2xx status never produces data and always gives `HttpStatus(code)`; a timeout gives `Timeout`; a transport failure keeps its detail; a 2xx JSON-typed body that does not decode gives `InvalidJson`; success carries the status, the content type, the normalized body and the headers |
| `Fetcher.GetMyData` | server.py:42-54 | success returns the fetched record; a timeout names the target; an HTTP error names the code and the target; a transport failure keeps its detail; a JSON-typed body that does not decode is reported as an invalid-JSON fetch error |
| `JsonData.Keys` | server.py:163 | the key list has one entry per member, the i-th entry being the i-th key |
| `JsonData.KeysListedOnce` | server.py:163-164 | over a dict, each key appears in the key list exactly once, and nothing else appears |
| `Router.FirstApplicableIsFirst` | server.py:98-126 | searching the rule table finds nothing exactly when no rule fires; what it finds fires, and no earlier topic fires |
| `Router.TopicOrderSearch` | server.py:98-123 | the table is tried in the order status, type, length, headers, keys, url |
| `Router.KeywordRows` | server.py:98-122 | each topic fires on the keywords of its branch: status/code, type/content type, length/size, headers, keys, url/source |
| `Router.FirstApplicableCons` | server.py:98-122 | one step of the search: the first topic of the table is tried before the rest |
| `Router.LengthAnswer` | server.py:105-112 | the generic summary comes back exactly for a JSON number, boolean or null; otherwise the answer is a length answer (characters, top-level keys or items) |
| `Router.Dispatch` | server.py:98-126 | the chain over the lower-cased question never reports a fetch failure; the status, content-type, headers and source answers carry the fetched status, content type (as it is, `""` included), header map and target; a keys answer comes only from a JSON object and lists its keys; the generic summary carries the target, status and content type |
| `Router.DispatchIsFirstMatch` | server.py:98-126 | for a lower-cased question, the answer belongs to the first topic whose rule fires; the generic summary comes back exactly when no rule fires, or when the length rule fires on a number, boolean or null |
| `Router.Route` | server.py:95-126 | the same answer values as `Dispatch`, for the question as asked, which is lower-cased first |
| `Router.RouteIsFirstMatch` | server.py:98-126 | the answer belongs to the first topic whose rule fires; the generic summary comes back exactly when no rule fires, or when the length rule fires on a number, boolean or null |
| `Router.EarlierTopicWins` | server.py:98-122 | when two rules fire, the answer never belongs to the later one |
| `Router.StatusBeforeHeaders` | server.py:98-116 | a question containing both "status" and "headers" gets the status code |
| `Router.LengthAnswerBySize` | server.py:105-112 | a length question gives characters for text or a JSON string, the top-level key count for an object, the item count for a list, and the generic summary (line 126) for a number, boolean or null |
| `Router.RouteIgnoresCase` | server.py:96 | a question and its lower-cased form get the same answer |
| `Router.AskAboutMyData` | server.py:66-126 | a failed fetch is reported as such; otherwise the answer is exactly the routed answer for the fetched record, so status and source answers use the fetched status and the target |
| `Analyzer.NestedLineOf` | server.py:169-172 | a container-valued member gives a line with its key and its size; a dictionary line exactly when the value is a dict, otherwise a list line |
| `Analyzer.NestedLinesFollowKeys` | server.py:167-172 | there is exactly one nested line per key whose value is a dict or list, in key order; line j describes the j-th such member with its size |
| `Analyzer.NestedSectionIff` | server.py:174-175 | the nested lines are non-empty exactly when some value is a dict or list |
| `Analyzer.NestedLinesKinds` | server.py:167-172 | nested lines are only dictionary or list lines, at most one per key |
| `Analyzer.CollectNested` | server.py:167-172 | the loop over all members builds exactly the nested lines |
| `Analyzer.SampleLineOf` | server.py:180-185 | a scalar value is shown as it is; a dict only as the `{...}` marker and a list only as the `[...]` marker with its size |
| `Analyzer.SampleLinesFollowKeys` | server.py:178-185 | one sample line per non-null member, in key order |
| `Analyzer.SamplesAtMostFive` | server.py:179-185 | at most five sample lines; each is about one of the first five keys; every non-null value among the first five keys has its line |
| `Analyzer.SampleLinesKinds` | server.py:178-185 | sample lines are only sample-value lines |
| `Analyzer.CollectSamples` | server.py:178-185 | the loop over the first five members builds exactly the sample lines |
| `Analyzer.TypeName` | server.py:201 | each scalar kind has its own type name: `str`, `int`, `bool`, `NoneType` |
| `Analyzer.ItemLineOf` | server.py:196-201 | an item line carries its index; a container item shows its size; a scalar item shows `TypeName` of the item and the item itself |
| `Analyzer.ItemLinesIndexed` | server.py:194-201 | there is one item line per item, and line i describes item i |
| `Analyzer.CollectItems` | server.py:194-201 | the loop over `enumerate(content[:5])` builds exactly the item lines of the first five items |
| `Analyzer.ObjectReportShape` | server.py:162-188 | an object's analysis opens with the key count and every key in order; the nested section appears exactly when some value is a container; the analysis has at most 3 + keys + 5 lines |
| `Analyzer.ExampleObjectReport` | server.py:162-188 | `{"a": 1, "b": {"c": 2}}` gives 2 keys `[a, b]`, the nested line `b: dictionary with 1 keys`, and the samples `a: 1` and `b: {...}` |
| `Analyzer.ListReportShape` | server.py:190-202 | a list's analysis gives its item count; an empty list gives only that line; otherwise "First k items" with k = min(5, n), then line i describes item i |
| `Analyzer.DescribeObject` | server.py:162-188 | the header, the nested section and the sample section assembled by the method are exactly the object report, whose shape `ObjectReportShape` proves |
| `Analyzer.DescribeList` | server.py:190-202 | the header and the item section assembled by the method are exactly the list report, whose shape `ListReportShape` proves |
| `Analyzer.DescribeStructure` | server.py:161-202 | assembling the header and the non-empty sections gives the base analysis of the object or list |
| `Analyzer.ApplyQuery` | server.py:204-218 | as written, the result is the given analysis, the key list of an object, or the NameError; a falsy query gives the analysis |
| `Analyzer.CountAndSampleUnreachable` | server.py:204-218 | as written, a query only ever gives the base analysis, the key list (objects only), or the NameError; the NameError comes exactly from a non-empty query without "key"; a query containing "key" gives the key list on an object and the base analysis on a list; a falsy query gives the base analysis |
| `Analyzer.CountQueryFails` | server.py:207-212 | the query "count" on an object raises the NameError as written; the intended code answers with the key count |
| `Analyzer.Excerpt` | server.py:216 | the sample text is at most the first 500 characters of the serialized JSON, followed by `...` |
| `Analyzer.ApplyQueryIntended` | server.py:205-216 | intended query, branch by branch over the lower-cased query: a falsy query gives the analysis; one mentioning "key" gives the key list of an object or the analysis for a list; otherwise "count" or "length" gives the key count of an object or the item count of a list; otherwise "example" or "sample" gives the 500-character excerpt; otherwise the analysis; it never fails |
| `Analyzer.IntendedAgreesWhereDefined` | server.py:205-218 | wherever the code as written does not fail, the intended query gives the same result |
| `Analyzer.AnalyzeMyJsonData` | server.py:138-218 | a failed fetch, a non-JSON content type and a JSON scalar each end the tool before any analysis; an object or list is analysed, then the query is applied as written |
| `Summary.Summarize` | server.py:237-257 | every summary gives the target and the status. An object adds the key count, plus the first five keys when it has any. A list adds the item count. A JSON scalar adds only the type. Text adds its character length |
| `Summary.GetMyDataSummary` | server.py:227-261 | a failed fetch gives the error summary; otherwise the summary of the fetched data |
| `Summary.FirstKeysArePrefix` | server.py:245-247 | the listed keys are the object's first keys, in order, and never more than five |

## Findings

| source | as written | input that shows it | evidently intended | confidence | as-written member | corrected member |
|---|---|---|---|---|---|---|
| server.py:207 | `"key" in query_lower or "keys" in question_lower`, where `question_lower` is not defined in `analyze_my_json_data` | `query="count"` on any JSON object raises `NameError`, so the count, length, example and sample branches (210-216) are unreachable | `"keys" in query_lower` | high (not executed) | `Analyzer.CountQueryFails` | `Analyzer.ApplyQueryIntended` |

The tool itself (`Analyzer.AnalyzeMyJsonData`) keeps the behaviour as written, using `Analyzer.ApplyQuery`.
The corrected query function sits beside it. `Analyzer.IntendedAgreesWhereDefined` shows that the two
agree on every input where the code as written does not fail.

## Left out

- The HTTP request, the 30-second timeout, `raise_for_status` and the async client are not modelled as I/O. The outcome of the GET is the input `Exchange`: a response, a timeout, or a transport failure.
- Exception text (`str(e)`) is not modelled. A failure carries only its kind (`FetchError`), and the messages are constructors.
- JSON decoding (`response.json()`) is an input: the response's `parsed` field, which is `None` when the text is not valid JSON.
- JSON serialization (`json.dumps`) is an input: the `dumped` parameter of the intended query. Only its 500-character truncation is modelled.
- Floating-point JSON numbers are not modelled: a number is an integer. `type(item).__name__` is `"int"` for it.
- Python `repr`/`str` rendering of keys, lists and values is not modelled. The lines carry the values they print.
- The pretty-printed header dump (`server.py:116`) is not modelled: the answer carries the header map.
- Unicode case mapping in `str.lower()` is not modelled: only the ASCII letters A-Z are lowered.
- Header name case-folding and the joining of repeated headers are not modelled. The headers are the client's already-normalized map.
- Tool registration with FastMCP, the unused `FetchResult` model (server.py:14-18), the startup prints and `mcp.run()` are framework plumbing and are not modelled.
- Concurrency is not modelled: every tool call is independent and shares no state.
- JSON objects with repeated keys are outside the model. A decoded Python dict never has them, but `Object(members)` does not exclude them; `KeysListedOnce` assumes distinct keys, and for a repeated key the counts in the reports and the summary would count every repeat.
