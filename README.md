# congressbot in Dafny

congressbot is a chat bot that answers questions about bills in the United
States Congress. It has three parts, and this project models and proves
properties of the deterministic logic in each:

- **The Congress.gov API client** (`congress.py`):
  - building request URLs and the tools' endpoints (`list_bills`, `get_bill`, `get_bill_text`, `get_members`);
  - handling the status of an API answer;
  - the tool schemas offered to the language model;
  - the way `get_bill_text` picks a text version and a format.
- **The bulk-data ingestion** (`db.py`):
  - the retry predicate of the embedding client;
  - the embedding function's document/query mode;
  - HTML escaping of text fragments;
  - extracting one document from an XML file;
  - the depth-first walk over the govinfo bulk-data listing tree;
  - the loading sequence that fills the `billsummaries` collection.
- **The tool-calling chat loop** (`agent.py`):
  - the registry of callable tools;
  - `CongressAgent.run`, which reads the user's lines, asks the model for a response, and dispatches function calls until the model answers with text. All the while it grows the conversation transcript.

External services become inputs:

| service | modelled as |
|---|---|
| Congress.gov API | an oracle `Api = (url, params) -> ApiResponse(status, json)` |
| plain text downloads | an oracle `Web = url -> WebResponse(status, text)` |
| bulk-data listing tree | a datatype; each folder and file carries the answer to its own fetch |
| XPath queries | the matches of each selector, given with the file |
| the language model | a finite script of responses |
| the user's lines | a finite script of lines |
| the vector store | a `Store` object holding a map from collection names to records |

Python exceptions become `Err` values of a `Result`, named after the exception that would be raised. The modules are:

| module | what it holds |
|---|---|
| `Wrappers` | `Option`, `Result`, and the `Error` kinds |
| `Json` | payload values and subscripting |
| `Strings` | decimal rendering and parsing, splitting on `/`, Python's lexicographic `str` order |
| `Congress` | the `congress.py` model |
| `Db` | the `db.py` model |
| `Agent` | the `agent.py` model |

Failure paths of the code, as the model keeps them:

- **Failed fetch of a bulk-data file.** When the fetch in `load_doc` does not answer 200, `doc_id` is never assigned (db.py:40-47), so `return` raises `UnboundLocalError`. `recursive_load` does not catch it, so the whole walk stops. The model returns `Err(UnboundLocal("doc_id"))`, and `WalkFailure` and `FirstFailure` state the consequence for the walk.
- **Failed fetch of a bulk-data folder.** A listing that does not answer 200 yields no documents, and the walk goes on with the next entry (db.py:54-56, `SkippedEntry`).
- **Failed API call in a tool.** `call_endpoint` returns `None` for a status other than 200. `list_bills`, `get_bill_text` and `get_members` subscript that `None` and raise `TypeError`; the model returns `Err(NotSubscriptable)`.
- **No version left in `get_bill_text`.** An empty version list raises `IndexError` at `versions[0]` (`Err(IndexOutOfRange)`).
- **No format fetched in `get_bill_text`.** When no format of the requested type can be fetched, the function falls off its end and returns `None` (`Ok(None)`).

## Model

| member | source | states |
|---|---|---|
| Json.Get | congress.py:62 | `j[key]` succeeds exactly on a dict holding the key and then gives its value; otherwise KeyError or TypeError |
| Json.GetFrom | congress.py:61-62 | subscripting the `None` of a failed call raises TypeError; otherwise it is a dict lookup |
| Strings.ParseIntToString | congress.py:60 | the decimal rendering of an integer parses back to that integer |
| Strings.IntToStringInjective | congress.py:60 | different integers render as different path segments |
| Strings.LessTransitive | congress.py:114-115 | the `str` order used to compare version dates is transitive |
| Strings.LessTotal | congress.py:114-115 | any two different date strings are ordered one way or the other |
| Strings.LessAsymmetric | congress.py:114-115 | no two date strings are each less than the other |
| Strings.SplitAppend | congress.py:84 | appending `/segment` to a path appends exactly one segment to its pieces |
| Congress.SchemasWellFormed | congress.py:6-142 | in every tool schema the required names are declared property names, and property names are distinct |
| Congress.SchemaParameters | congress.py:40-104 | `billType` admits exactly the eight bill types in both bill schemas; `list_bills` declares exactly its five keyword parameters |
| Congress.Url | congress.py:23-26 | the URL always starts with the base URL and ends with the endpoint |
| Congress.UrlIdempotent | congress.py:23-26 | building the URL twice is the same as building it once |
| Congress.UrlVerbatim | congress.py:23-26 | an endpoint is used verbatim exactly when it starts with the base URL; otherwise the URL is base, then `/`, then the endpoint |
| Congress.CallEndpoint | congress.py:21-32 | the payload is returned exactly when the status is 200; any other status gives None |
| Congress.ListBillsEndpoint | congress.py:57-60 | the endpoint is `bill` exactly when no congress is given |
| Congress.ListBillsEndpointRoundTrip | congress.py:57-60 | the congress, or its absence, is recovered from the `list_bills` endpoint |
| Congress.ListBillsParams | congress.py:61 | the query holds exactly `offset`, `limit`, `fromDateTime`, `toDateTime`; the dates are null exactly when not given |
| Congress.ListBills | congress.py:55-62 | the result is the `bills` entry of a successful answer; a failed call raises TypeError |
| Congress.BindListBills | congress.py:55 | binding `**args` to `list_bills`: an unknown keyword is a TypeError; binding succeeds exactly when every keyword is a parameter with a value of its kind; each supplied value is used, and each absent one takes its default (0, 250, or none) |
| Congress.ListBillsCall | agent.py:46 | `list_bills(**args)` fails as binding does, and otherwise is `list_bills` on the bound values; no keywords means the defaults 0 and 250 and no dates or congress |
| Congress.BillEndpoint | congress.py:84 | the `get_bill` endpoint starts with `/bill/` |
| Congress.BillEndpointPieces | congress.py:84 | the endpoint's segments are `""`, `bill`, the congress, the type and the number |
| Congress.BillEndpointRoundTrip | congress.py:84 | congress, bill type and number are recovered from the endpoint |
| Congress.BillTextEndpoint | congress.py:110 | the text endpoint is the bill endpoint plus one `text` segment |
| Congress.BillUrlDoubleSlash | congress.py:84-85 | the leading `/` of the endpoint gives a URL with `v3//bill` in it |
| Congress.GetBill | congress.py:82-86 | a result is returned exactly when the bill endpoint answers 200, and it is that answer's payload |
| Congress.DecodeVersion | congress.py:114-115 | reading `v['date']`: an entry that is not a dict raises TypeError, one without `date` raises KeyError; a dict with a string `date` decodes to that date and the entry, and a decoded version is always of that form |
| Congress.DecodeVersionList | congress.py:112-115 | the list decodes exactly when every entry does, into one version per entry, in order; a failure carries the error of the first failing entry |
| Congress.DecodeVersions | congress.py:112-115 | a list `textVersions` decodes exactly when every entry does, one version per entry; a non-list raises AttributeError at `sort` without `asOf`, and with `asOf` gives no versions when it is an empty string or dict and raises TypeError otherwise |
| Congress.FilterAsOf | congress.py:113-114 | kept versions are exactly those of the list whose date is not after `asOf` |
| Congress.FilterAsOfSingle | congress.py:114 | a lone version is kept exactly when its date is not after `asOf` |
| Congress.FilterAsOfAppend | congress.py:114 | the filter distributes over concatenation, so it keeps the order and the multiplicity of kept versions |
| Congress.LatestUnique | congress.py:115-116 | at most one index is the head of the date-descending sort |
| Congress.LatestIndex | congress.py:115-116 | the chosen version has the greatest date and is the first with that date |
| Congress.LatestVersion | congress.py:115-116 | the loop finds the head of the date-descending stable sort |
| Congress.TryFormat | congress.py:117-123 | one format gives its fetched text exactly when its type matches and its fetch answers 200; a format of another type, or a matching one whose fetch fails, gives None so the loop moves on; a non-dict format raises TypeError, a missing `type`, or a missing `url` on a match, raises KeyError |
| Congress.FirstFetchReadable | congress.py:117-124 | over formats that are dicts with a `type` and a string `url`, the result is the text of the first format of the requested type that answers 200, and None when there is none |
| Congress.FirstFetch | congress.py:117-124 | the result is that of the first format giving text; None exactly when every format gives nothing |
| Congress.FirstText | congress.py:117-124 | the early-returning format loop computes the first fetch |
| Congress.BillText | congress.py:108-112 | a failed text-versions call raises TypeError; a 200 answer without `textVersions` raises KeyError |
| Congress.Kept | congress.py:113-114 | without `asOf` the list is kept as is; with it, exactly the versions of the list dated on or before `asOf` are kept |
| Congress.VersionText | congress.py:116-124 | a version without `formats` raises KeyError; a list of formats gives the first fetch over it; an empty string or dict gives None and any other non-list raises TypeError |
| Congress.BillTextLatest | congress.py:111-124 | once the versions decode, no kept version raises IndexError; otherwise the result is that of trying the formats of the version a stable date-descending sort puts first |
| Congress.GetBillText | congress.py:108-124 | fetch, filter by `asOf`, pick the latest version, try its formats in order |
| Congress.MembersEndpoint | congress.py:146 | the members endpoint starts with `/member` |
| Congress.MembersDistrictNeedsState | congress.py:149-152 | a district without a state is ignored |
| Congress.MembersEndpointRoundTrip | congress.py:146-152 | congress, state, and district (only under a state) are recovered from the endpoint |
| Congress.MembersEndpointAmbiguity | congress.py:146-152 | the state `congress` with district 5 gives the same endpoint as congress 5 |
| Congress.GetMembers | congress.py:144-154 | a result is returned exactly when the members endpoint answers 200 with a `members` entry, and it is that entry; a failed call raises TypeError; every argument has the default of congress.py, `current` defaulting to true |
| Db.IsRetriable | db.py:14-15 | exactly API errors with code 429 or 503 are retried |
| Db.Embedder.constructor | db.py:18-20 | the mode is stored as given |
| Db.Embedder.SetQuery | db.py:22-23 | `set_query` clears document mode |
| Db.Embedder.Task | db.py:27 | the task is `retrieval_document` exactly in document mode, otherwise `retrieval_query` |
| Db.Embedder.Embed | db.py:25-33 | a call embeds the batch with the embedding model and the task of the mode at call time |
| Db.ModeAtCallTime | db.py:17-33 | the same embedder embeds as documents before `set_query` and as queries after |
| Db.Escape | db.py:44 | the escaped text has no `<`, `>`, `"` or `'` |
| Db.EscapeRoundTrip | db.py:44 | unescaping the five character references gives the text back |
| Db.EscapeConcat | db.py:43-44 | escaping distributes over concatenation |
| Db.EscapeExample | db.py:44 | `<b>Fund roads</b>` becomes `&lt;b&gt;Fund roads&lt;/b&gt;` |
| Db.EscapeParts | db.py:43-44 | the body succeeds exactly when every fragment has text, and then has no markup; otherwise AttributeError |
| Db.EscapePartsJoined | db.py:43-44 | the body is the escape of the fragments' texts joined in order |
| Db.BodyReadsBack | db.py:43-44 | unescaping the body gives back the joined fragment texts |
| Db.Extract | db.py:35-47 | a failed fetch is UnboundLocalError; success means id, body and every metadata field found; id and metadata are first matches; metadata keys are exactly the selector keys |
| Db.ExtractedBody | db.py:43-44 | an extracted body has no markup and reads back as the fragments' texts |
| Db.LoadDoc | db.py:35-47 | the two loops of `load_doc` compute the extraction |
| Db.Walk | db.py:49-63 | a listing that does not answer 200 gives no documents; otherwise the walk goes through exactly when every entry's walk does |
| Db.WalkFiles | db.py:57-62 | the entries of a listing go through exactly when each of them does |
| Db.WalkEntry | db.py:58-62 | a non-XML file gives nothing; an XML file gives exactly its extraction, or its error |
| Db.WalkIsLeaves | db.py:49-63 | the walk extracts exactly the XML files reachable through successfully fetched folders, depth-first and in listing order, and stops at the first failure |
| Db.WalkCount | db.py:57-63 | a successful walk gives one document per reachable XML file, each that file's extraction, in order |
| Db.WalkFailure | db.py:57-63 | the walk fails exactly when some reachable XML file cannot be extracted |
| Db.FirstFailure | db.py:57-63 | a failed walk carries the error of the first failing file |
| Db.SkippedEntry | db.py:54-60 | a folder whose fetch fails or a non-XML file can be removed without changing the walk; later siblings are still visited |
| Db.RecursiveLoad | db.py:49-63 | the recursive loop computes the walk, with `[]` for a failed listing |
| Db.RootUrl | db.py:67 | the root URL starts with the bulk-data URL and a `/` |
| Db.RootUrlPieces | db.py:67 | the root URL ends with the collection kind and the congress as two segments |
| Db.RootUrlInjective | db.py:67 | different congresses have different root URLs |
| Db.LoadDocs | db.py:65-68 | `load_docs` is the walk from the listing at the root URL |
| Db.Store.GetOrCreate | db.py:77 | the collection exists afterwards with its earlier records, and the returned handle names it and carries the given embedding function; nothing else changes |
| Db.Store.Add | db.py:79 | one record is appended with the document, its id, its metadata and its embedding request; nothing else changes |
| Db.Stored | db.py:78-79 | the records of documents added in document mode, in order |
| Db.AddAll | db.py:78-79 | the documents are appended to the existing collection in order, each embedded as a document; no other collection changes |
| Db.LoadBillSummaries | db.py:72-81 | a load failure leaves the store untouched; otherwise the documents are appended in walk order to `billsummaries`, each embedded as a document, and the returned collection is `billsummaries` with its embedder in query mode |
| Agent.FirstPart | agent.py:27-30 | the response is the first part of the first candidate; an empty list is IndexError |
| Agent.Registry | agent.py:22 | the registry's names are exactly the schema names |
| Agent.RegistryLast | agent.py:22 | each name maps to the function of its last pair |
| Agent.Functions | agent.py:12-14 | the function list is the single pair of the `list_bills` schema and `list_bills(**args)` |
| Agent.AgentRegistry | agent.py:12-14 | only `list_bills` is callable, and calling it is `list_bills(**args)` |
| Agent.Declarations | agent.py:21 | the declarations are the schemas in order |
| Agent.Dispatch | agent.py:40-51 | the inner loop only appends to the transcript and the output |
| Agent.DispatchConsumes | agent.py:40-51 | the inner loop consumes responses from the front of the script |
| Agent.DispatchNames | agent.py:42-45 | every call the inner loop logs names a registered function |
| Agent.DispatchCalls | agent.py:40-50 | the calls in the new turns are the logged calls, in order, except a last logged call whose tool raised |
| Agent.DispatchAnswered | agent.py:40-52 | an answered loop made one call per response it consumed, appended two turns per call, and printed its answer last |
| Agent.DispatchTrace | agent.py:40-52 | an answered inner loop that consumed k responses appended 2k turns and printed k + 1 lines; round i took call c_i from the first part of the response before it, logged it, and appended `CallTurn(c_i)` then the result of c_i's tool at positions 2i and 2i + 1; the answer is the text of response k |
| Agent.LineTrace | agent.py:38-52 | for an answered line with k calls, c_i is the first part of response i, for i < k; the turns after the user turn at 2i + 1 and 2i + 2 are `CallTurn(c_i)` and the result of c_i's tool, the i-th new output line logs c_i, and the last printed line is the text of response k |
| Agent.Line | agent.py:36-39 | a line appends its user turn first and only appends after it |
| Agent.LineConsumes | agent.py:38-51 | a line consumes responses from the front of the script, at least one when it is answered |
| Agent.Session | agent.py:32-52 | the transcript and the output are append-only over a session |
| Agent.Continue | agent.py:34-52 | after a line, the outer `while True` reads on or stops, and the transcript and the output only grow |
| Agent.DispatchWellFormed | agent.py:47-50 | the inner loop keeps the transcript well formed |
| Agent.SessionWellFormed | agent.py:32-52 | each call turn is followed by a response under the same name wrapping `{"result": ...}`, and no model turn carries text |
| Agent.QuitUnchanged | agent.py:35-37 | `q` ends the session with the transcript and the output unchanged |
| Agent.LineGrowth | agent.py:38-52 | an answered line with k calls grows the transcript by exactly 1 + 2k and the output by exactly k + 1, consuming k + 1 responses; logged calls are the transcript's calls, in order; the last printed line is the text of response k |
| Agent.UnknownTool | agent.py:43 | an unregistered name raises KeyError before anything is logged or appended |
| Agent.FailingToolLogged | agent.py:45-46 | a failing tool is logged before it raises, and the transcript is unchanged |
| Agent.OnlyFirstPart | agent.py:30 | responses that agree on their first part lead to the same step |
| Agent.CallThenText | agent.py:38-52 | a call then a text response gives one invocation, one answer and a three-turn transcript |
| Agent.CongressAgent.constructor | agent.py:20-25 | the registry and the declarations are built from the function list; the instruction and the model name default to those of agent.py |
| Agent.CongressAgent.HandleLine | agent.py:38-39 | the body of `run` for one line computes the step of that line |
| Agent.CongressAgent.Respond | agent.py:40-52 | the inner `while` loop computes the step of the inner loop from its first response on |
| Agent.CongressAgent.Run | agent.py:32-52 | `run` computes the session |

## Left out

- HTTP, the genai client, chromadb and `PersistentClient` are replaced by oracles, scripts and the `Store` object.
- Db.Store.Add: the record list assumes distinct document ids. A repeated id appends a second record, while chromadb would treat it otherwise.
- `retry.Retry` (db.py:25): the backoff and attempt policy are left out; only its predicate is modelled.
- lxml parsing and XPath evaluation: each selector's matches are given with the file.
- Embedding vectors and floating-point values: an embedding call is modelled as the request it sends.
- Environment variables and dotenv loading (congress.py:27, agent.py:23, db.py:83-87) are left out. The `load` entry point is not modelled beyond `load_bill_summaries`.
- The text of printed error reports is left out. Only the agent's call log and answers are kept, as outputs.
- The generation config (system instruction and tool list) is kept as data; the model's use of it is not modelled.
- Congress.GetBillText: only the head of the descending sort is modelled, not the order of the rest of the list. That head is the first version with the greatest date, which is what a stable sort puts first, and only `versions[0]` is read.
- Congress.ListBillsCall: keyword values of the wrong JSON kind are rejected with `BadArgumentType`. Python would pass them through to the request.
- Congress.DecodeVersion: a `date` that is not a string is `Malformed`. Python only compares dates: with `asOf` such a date raises TypeError at `<=`, but with no `asOf` a lone version, or a list whose dates are all numbers, goes on to its formats. Such payloads are not modelled.
- Congress.TryFormat: a format whose `url` is not a string is `Malformed`; Python would hand it to `requests.get`.
- Agent: `None` for a missing candidate list or parts list is treated as an empty list, which raises IndexError as `[0]` on the empty list would; Python raises TypeError on `None[0]`.
- Agent: a call's arguments are always a dict. When the model sends a call without arguments, `function(**None)` raises TypeError in Python; the model has no such call and a call with an empty dict uses the defaults.
- Agent.CongressAgent.Run: the scripts are finite. When the lines run out, the model raises EOFError. When the responses run out, the run stops with `OutOfReplies`, which is a bound of the model, not a behaviour of the program.
- Db.LoadBillSummaries: the embedder is created in document mode and switched to query mode at the end; `Db.ModeAtCallTime` shows that the mode at call time decides the task. The embedder's later use by queries is not part of this model.
- run_agent.py and load_db.py, the command-line wrappers, are not part of this model.
