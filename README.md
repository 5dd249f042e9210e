# A verified model of the Databricks MCP server's request shaping and tool results

The server exposes Databricks management operations as agent tools. Two
pieces of it carry logic of their own, and this project models both:

- **The jobs API module** (`src/api/jobs.py`). Each function turns its
  arguments into exactly one call of the REST helper `make_api_request`
  (method, path, optional query parameters, optional JSON body) and returns
  the helper's answer unchanged. `Jobs.RequestOf` specifies the request of
  every call. The seven fixed-shape functions are pure builders.
  `run_job`, `get_run` and `repair_run` insert keys into a dict literal
  under `if` guards, so they are methods that update a local map step by
  step. `Jobs.Decode` reads the call back out of its request. This shows
  that the shaping loses nothing except what Python's truthiness tests
  merge: a falsy `job_parameters` of `run_job`, and the history flag of
  `get_run`.
- **The tool wrappers** (`main.py`). Every tool but `create_cluster` runs
  its API call in a `try` and returns a one-element content list. That list holds the encoded
  result or the encoded `{"error": str(e)}` (`Tools.Respond`). The notebook
  export tool also replaces exported content longer than 1000 characters by
  its first 1000 characters and a marker giving the original length
  (`NotebookExport`).

Python values are `Json.JsonValue`, with `None` as `Null`. So `is not None`
is `!= Null`, and `if x:` is `Json.Truthy`. A Python call that returns or
raises an `Exception` is a `Json.Result`: `Ok(value)`, or `Err(str(e))`.

`make_api_request` is `Transport.Client.MakeApiRequest`. The client records
every request it sends in `sent`. It answers with `remote(history,
request)`, an unspecified function of everything sent so far. This is how
"exactly one request per call, answer returned unchanged" is stated.

`json.dumps` is the abstract parameter `encode`. Python's `str()` of a list
is the abstract parameter `pyStr`. The notebooks and clusters API functions
are abstract functions passed in.

Three consequences of the code are worth stating plainly:

- A 1500-character export comes back 1054 characters long
  (`NotebookExport.SummaryOf1500`): 1000 kept, a 50-character marker, and
  4 digits. It does not fit a 1024-character bound.
- Success and failure are told apart only by the shape of the payload. The
  tool text of a successful result `{"error": m}` equals that of a failure
  with message `m` (`Tools.RespondSeparatesOutcomes`).
- `jobs.py` hints its ids as `int`, but the tools in `main.py` pass strings.
  The model types ids as arbitrary values, and the tools pass `Str(id)`.

## Model

| member | source | states |
|---|---|---|
| `Json.FalsyValues` | src/api/jobs.py:47-49 | The values an `if` test treats as false are exactly None, False, 0, "", [] and {}. |
| `Json.Len` | main.py:184 | `len` is defined exactly on strings, lists and dicts, and gives a string's character count. |
| `Decimal.NatToStringShape` | main.py:185 | The decimal text of the original length has one character per digit, and only digits. |
| `Decimal.NatToStringNoLeadingZero` | main.py:185 | The decimal text starts with '0' only for zero, so it is canonical. |
| `Decimal.ParseNatToString` | main.py:185 | Reading the decimal text back gives the number. |
| `Decimal.NumDigitsBounds` | main.py:185 | The digit count k of n satisfies n < 10^k, and 10^(k-1) <= n for n >= 1. |
| `Transport.Client.MakeApiRequest` | src/api/jobs.py:8 | One call appends exactly its request to the sent log and returns the platform's answer unchanged. |
| `Jobs.RepairBodyFields` | src/api/jobs.py:216-237 | The repair body always holds `run_id`. Each of the seven optional fields is present iff its argument is not None, holds it verbatim, and no other key appears. |
| `Jobs.RunNowBody` | src/api/jobs.py:47-49 | The run-now body always holds `job_id`. It has `job_parameters`, verbatim, iff that argument is truthy, and no other key. |
| `Jobs.RunsGetParams` | src/api/jobs.py:141-143 | The runs/get query always holds `run_id`. It has `include_history = "true"` iff the flag is truthy, and no other key. |
| `Jobs.CreateJobRequest` | src/api/jobs.py:28 | POST /api/2.0/jobs/create, with `job_config` forwarded unchanged as the body and no query. |
| `Jobs.ListJobsRequest` | src/api/jobs.py:65 | GET /api/2.0/jobs/list, with neither query nor body. |
| `Jobs.GetJobRequest` | src/api/jobs.py:82 | GET /api/2.0/jobs/get. The query keys are exactly {job_id}, holding the argument, and there is no body. |
| `Jobs.UpdateJobRequest` | src/api/jobs.py:101-106 | POST /api/2.0/jobs/update. The body keys are exactly {job_id, new_settings}, holding the arguments. |
| `Jobs.DeleteJobRequest` | src/api/jobs.py:123 | POST /api/2.0/jobs/delete. The body keys are exactly {job_id}. |
| `Jobs.CancelRunRequest` | src/api/jobs.py:161 | POST /api/2.0/jobs/runs/cancel. The body keys are exactly {run_id}. |
| `Jobs.GetRunOutputRequest` | src/api/jobs.py:182 | GET /api/2.2/jobs/runs/get-output. The query keys are exactly {run_id}, and there is no body. |
| `Jobs.DecodeRequestOf` | src/api/jobs.py:14-239 | Every request decodes back to the call that sent it, up to the truthiness merging of run-now parameters and the history flag. |
| `Jobs.RequestOfNormal` | src/api/jobs.py:47-49 | Calls that differ only in a falsy run-now `job_parameters` or in equally truthy history flags send the same request. |
| `Jobs.RequestOfInjective` | src/api/jobs.py:14-239 | Two calls send the same request iff they agree up to that merging. |
| `Jobs.EndpointsDistinct` | src/api/jobs.py:14-239 | Two calls use the same method and path iff they invoke the same jobs function: no two functions share an endpoint. |
| `Jobs.RepairFieldsInsert` | src/api/jobs.py:218-237 | One `if x is not None: repair_data[k] = x` step adds key k to the admitted keys, and nothing else. |
| `Jobs.RepairBodyInOrder` | src/api/jobs.py:216-237 | Starting from {"run_id": run_id} and applying the seven guarded insertions in the source's order gives exactly the repair body. |
| `Jobs.RepairBodyMinimal` | src/api/jobs.py:216-239 | With every optional argument None, the repair body is exactly {"run_id": run_id}. |
| `Jobs.RepairBodyKeepsFalsy` | src/api/jobs.py:218-237 | Falsy but present values (False, 0, [], {}, "") are all kept in the repair body. |
| `Jobs.RunNowBodyDropsFalsy` | src/api/jobs.py:47-49 | With `job_parameters` None or {}, the run-now body is exactly {"job_id": job_id}. |
| `Jobs.RunsGetParamsDefault` | src/api/jobs.py:126-144 | With the default `include_history=False`, the query is exactly {"run_id": run_id}. |
| `Jobs.BuildRunJobRequest` | src/api/jobs.py:47-51 | The step-by-step dict construction sends POST /api/2.2/jobs/run-now with the specified body. |
| `Jobs.BuildGetRunRequest` | src/api/jobs.py:141-144 | The step-by-step query construction sends GET /api/2.2/jobs/runs/get with the specified query. The flag defaults to False. |
| `Jobs.BuildRepairRunRequest` | src/api/jobs.py:216-239 | The seven guarded insertions send POST /api/2.2/jobs/runs/repair with the specified body. All optionals default to None. |
| `Jobs.CreateJob` | src/api/jobs.py:14-28 | Sends exactly the create request and returns the answer unchanged. |
| `Jobs.RunJob` | src/api/jobs.py:31-51 | Sends exactly the run-now request and returns the answer unchanged. |
| `Jobs.ListJobs` | src/api/jobs.py:54-65 | Sends exactly the list request and returns the answer unchanged. |
| `Jobs.GetJob` | src/api/jobs.py:68-82 | Sends exactly the get request and returns the answer unchanged. |
| `Jobs.UpdateJob` | src/api/jobs.py:85-106 | Sends exactly the update request and returns the answer unchanged. |
| `Jobs.DeleteJob` | src/api/jobs.py:109-123 | Sends exactly the delete request and returns the answer unchanged. |
| `Jobs.GetRun` | src/api/jobs.py:126-144 | Sends exactly the runs/get request and returns the answer unchanged. |
| `Jobs.CancelRun` | src/api/jobs.py:147-161 | Sends exactly the cancel request and returns the answer unchanged. |
| `Jobs.GetRunOutput` | src/api/jobs.py:164-182 | Sends exactly the get-output request and returns the answer unchanged. |
| `Jobs.RepairRun` | src/api/jobs.py:185-239 | Sends exactly the repair request and returns the answer unchanged. |
| `NotebookExport.TruncateContent` | main.py:182-186 | The in-place rewrite of the result's `content` entry yields the specified truncated result or raised error. |
| `NotebookExport.TruncatedWithoutContent` | main.py:183-184 | A result without `content` passes unchanged (the default "" has length 0), and no `content` key is added. |
| `NotebookExport.TruncatedShortContent` | main.py:184 | Content whose `len` is at most 1000, exactly 1000 included, passes unchanged: a string of at most 1000 characters, or a list or dict of at most 1000 entries. |
| `NotebookExport.TruncatedLongContent` | main.py:184-186 | Longer content becomes `content[:1000]` plus "... [content truncated, total length: N characters]". Every other key keeps its value, and no key is added or removed. |
| `NotebookExport.TruncatedContentWithoutLength` | main.py:183-184 | A `content` of None, a bool or a number makes `len` raise, and the step fails. |
| `NotebookExport.SummaryLength` | main.py:185 | Truncated content is exactly 1050 plus the number of digits of N characters long. |
| `NotebookExport.SummaryKeepsPrefix` | main.py:185 | The first 1000 characters of the truncated content are the original's first 1000. |
| `NotebookExport.SummaryOf1500` | main.py:184-186 | A 1500-character export becomes 1054 characters, with "1500" in its marker. |
| `NotebookExport.SummaryRecoversLength` | main.py:185 | The original length can be read back from the marker of the truncated content. |
| `Tools.Respond` | main.py:24-29 | Every outcome gives a one-element list. Its text is the encoding of the result on success, or of {"error": message} on failure, and no `Exception` escapes. |
| `Tools.RespondSeparatesOutcomes` | main.py:80-85 | With a faithful encoder, the success and failure texts coincide iff the success value is itself {"error": message}. |
| `Tools.RepairRunForwardsArguments` | main.py:132-157 | Each optional `repair_run` argument puts its key in the repair body iff the caller gives it, falsy values included, and the key then holds the given value. `run_id` is always sent. |
| `Tools.RunJobForwardsParameters` | main.py:88-92 | The `run_job` parameters reach the run-now body iff they are given and non-empty, and then verbatim. An omitted argument and {} both send no `job_parameters`. |
| `Tools.GetRunForwardsHistory` | main.py:110-114 | `get_run` asks for the history iff `include_history` is given as true. The default False and an explicit None both leave it out. |
| `Tools.ListJobs` | main.py:76-85 | Sends the list-jobs request and returns the wrapped answer. |
| `Tools.RunJob` | main.py:87-96 | Forwards `job_id` and `job_parameters`, default None, to the run-now call and returns the wrapped answer. |
| `Tools.GetJob` | main.py:98-107 | Forwards `job_id` to the get call and returns the wrapped answer. |
| `Tools.GetRun` | main.py:109-118 | Forwards `run_id` and `include_history`, default False, to the runs/get call and returns the wrapped answer. |
| `Tools.GetRunOutput` | main.py:120-129 | Forwards `run_id` to the get-output call and returns the wrapped answer. |
| `Tools.RepairRun` | main.py:131-161 | Forwards all eight parameters, in declaration order, to the repair call and returns the wrapped answer. |
| `Tools.ExportNotebook` | main.py:175-191 | Exports with `format` defaulting to "SOURCE", truncates a successful result, and wraps the outcome. |
| `Tools.CreateClusterAsWrittenEscapes` | main.py:31-40 | As written, every call of the cluster-creation tool raises a NameError ahead of its `try`. |
| `Tools.ClusterParams` | main.py:32-36 | The cluster specification holds exactly the five declared parameters. |
| `Tools.CreateCluster` | main.py:31-40 | The intended cluster-creation tool forwards the assembled parameters. It returns a one-element list with the result or the error payload. |

## Left out

- `make_api_request` and `DatabricksAPIError` (`src/core/utils`) are not part of this model. Building the URL, the authorization header, the timeout, and classifying a response as success, API error, connection error or parse error are abstracted into `Client.remote`. Errors keep only their message `str(e)`, which is all the tools use.
- The FastMCP registry, `@mcp.tool()`, its schema validation of tool arguments, `TextContent` typing and the server start-up block are left out. The typed parameters of the `Tools` methods stand for the validated arguments.
- Logging is left out. Its one effect on results, the f-string at main.py:34 that raises the NameError of `create_cluster`, is modelled by `Tools.CreateClusterAsWritten`.
- `async`/`await` and exceptions outside `Exception` are left out. `except Exception` does not catch `asyncio.CancelledError` (raised at an `await` when a call is cancelled), `KeyboardInterrupt` or `SystemExit`, so such a call escapes every tool wrapper instead of returning the error payload. `Err` stands only for the `str(e)` of an `Exception`.
- `json.dumps` and Python's `str()` of a list are abstract parameters. Dict key order (Python keeps insertion order) is not modelled, because bodies are unordered maps.
- JSON floating-point numbers are left out. Numbers are integers.
- The cluster, notebook-listing, DBFS and SQL tools (`list_clusters`, `terminate_cluster`, `get_cluster`, `start_cluster`, `list_notebooks`, `list_files`, `execute_sql`) are left out. Their API modules are not shown, and their wrappers are exactly the `Tools.Respond` pattern.
- `notebooks.export_notebook` and `clusters.create_cluster` are not shown, so they are abstract functions. The key names of `Tools.ClusterParams` come from the tool's declared parameter names.
- `create_job`, `update_job`, `delete_job` and `cancel_run` have no tool in `main.py`, so they are modelled at the API level only.
- `NotebookExport.Truncated`: for dict content over 1000 entries it uses the Python 3.12+ message of the `KeyError` raised by `content[:1000]`. Earlier versions raise `TypeError: unhashable type: 'slice'` instead.
- Strings are sequences of Unicode scalar values. Python strings holding lone surrogates are not modelled.
- `Transport.Client`: the platform's answer is a function of the request history. Any nondeterminism of the remote side is folded into that function.

## Findings

| source | as written | input that shows it | evidently intended | confidence | as-written member | corrected member |
|---|---|---|---|---|---|---|
| main.py:32-36 | `create_cluster` logs and forwards `params`, which nothing binds. The log line sits before the `try`, so the NameError escapes instead of becoming an error payload. | any call, e.g. `create_cluster("c", "13.3.x", "i3.xlarge", 1, 60)` | assemble `params` from the five declared parameters, then forward it inside the `try` | high, not executed | `Tools.CreateClusterAsWrittenEscapes` (about `Tools.CreateClusterAsWritten`) | `Tools.CreateCluster` |
