# Pull-request review task, in Dafny

This project models the background task `analyze_pull_request` of a GitHub pull-request
review service. Given a repository URL, a pull-request number and an optional access token, the
task does five things:

- it lists the files the pull request changes;
- it keeps those with a non-empty patch and renders each as a text block;
- it sends a fixed prompt with those blocks to a language model;
- it counts the files, issues and critical issues in the model's decoded JSON reply;
- it saves one final record, `failed` or `completed`, under the task id.

The model is split by component:

- `PyStr` covers the Python string operations the task relies on: `str.replace` used as
  "remove every occurrence", `str(int)`, and `sep.join`.
- `PyJson` covers the decoded JSON values and Python's `d.get(k, default)`, `len`, `for`
  iteration and `{**d, k: v}`. Each operation fails with the text Python would raise.
- `Request` holds the GitHub headers, the owner/repo path and the "list pull request files"
  URL.
- `InputFiles` holds the filter loop, as a method with a loop invariant, and its reference
  definition by kept indices.
- `Prompt` holds the fixed instructions and the joined blocks.
- `Summary` holds the three counts. It reproduces the order in which Python computes them and
  the exceptions Python raises on a reply of an unexpected shape. It also gives a declarative
  account of when they succeed and what they count.
- `ResultStore` holds the store of final records.
- `Task` holds the whole task. `Analyze` is a pure function. `AnalyzePullRequest` is the
  imperative task with its early returns, and it is proved to save `Analyze`'s record.

The GitHub request and the model call, together with the decoding of the model's reply, are
function parameters (`fetch`, `ask`). This lets "the model is not called when there is nothing
to review" be stated as independence from `ask`. It also lets "the model sees only the prompt"
be stated as a lemma.

Two behaviours of the code are modelled as written:

- The failure record for an undecodable reply carries no copy of the raw reply.
- No language label is inferred from file extensions. The prompt block holds only the file
  name and the patch.

The prompt's review criteria are adjacent string literals with no separator. They therefore run
together ("...formatting issues- Potential bugs..."), and the model keeps them that way.

## Model

| member | source | states |
|---|---|---|
| `Request.AuthHeaders` | app/tasks/analyzer.py:18-21 | The Authorization header is `"token " + t` exactly when a non-empty token `t` is given, and is empty otherwise. The Accept header is the fixed v3 media type. |
| `PyStr.RemoveAllAbsent` | app/tasks/analyzer.py:22 | A URL in which `https://github.com/` does not occur passes through `replace` unchanged. |
| `Request.OwnerRepoWithoutPrefix` | app/tasks/analyzer.py:22 | A repository URL without the GitHub prefix is used as the owner/repo path as it is. |
| `Request.FilesUrlOfCanonical` | app/tasks/analyzer.py:22-23 | For `https://github.com/<path>`, the path is `<path>`. The endpoint is `https://api.github.com/repos/<path>/pulls/<decimal number>/files`. |
| `PyStr.NatToDecimal` | app/tasks/analyzer.py:23 | `str(n)` is a non-empty string of digits with no leading zero except for 0 itself. |
| `PyStr.IntDecimalRoundTrip` | app/tasks/analyzer.py:23 | Reading the printed pull-request number back, sign included, gives the number. |
| `Request.FilesUrlSeparatesPulls` | app/tasks/analyzer.py:23 | Different pull-request numbers of one repository give different endpoint URLs. |
| `InputFiles.CollectInputFiles` | app/tasks/analyzer.py:36-40 | The loop's list equals `InputBlocks(files)`: one block per file with a non-empty patch, in input order. |
| `InputFiles.KeptIndicesExact` | app/tasks/analyzer.py:37-39 | The kept positions are exactly the files whose patch is present and non-empty, in strictly increasing order. |
| `InputFiles.InputBlocksFollowKept` | app/tasks/analyzer.py:36-40 | Block k is `"File: " + name + "\nPatch:\n" + patch + "\n\n"` of the k-th kept file. The number of blocks equals the number of kept files. |
| `InputFiles.InputBlocksEmptyIff` | app/tasks/analyzer.py:42 | The block list is empty if and only if no file has a non-empty patch. |
| `InputFiles.SkipUnpatched` | app/tasks/analyzer.py:37-40 | Removing a file without a usable patch from anywhere in the list leaves the blocks unchanged. |
| `InputFiles.InputBlocksAppend` | app/tasks/analyzer.py:36-40 | The blocks of two runs of files, taken one after the other, are the blocks of each run concatenated. |
| `PyStr.JoinAt` | app/tasks/analyzer.py:75 | In `sep.join(xs)`, each item stands whole at its offset, and each item but the last is followed by exactly one separator. |
| `PyStr.JoinLastEnds` | app/tasks/analyzer.py:75 | The last item of `sep.join(xs)` ends the joined string. |
| `PyStr.JoinOffsetNext` | app/tasks/analyzer.py:75 | Each item of `sep.join(xs)` starts right after the previous item and one separator. |
| `Prompt.BuildPrompt` | app/tasks/analyzer.py:46-75 | The prompt is the fixed instructions, then `"Code changes:\n"`, then the blocks joined by `"\n"`. |
| `Prompt.BlockInPrompt` | app/tasks/analyzer.py:75 | Every block appears whole in the prompt after the fixed text, in order, with single newlines between blocks. |
| `Prompt.PromptEnds` | app/tasks/analyzer.py:46-75 | The prompt ends with the last block, or with `"Code changes:\n"` when there are no blocks. |
| `Prompt.KeptFileInPrompt` | app/tasks/analyzer.py:36-75 | The block of the k-th kept file appears whole in the prompt at the k-th block offset. |
| `Prompt.PromptIgnoresUnpatched` | app/tasks/analyzer.py:36-75 | Adding a file with a missing or empty patch anywhere does not change the prompt. |
| `PyJson.GetOr` | app/tasks/analyzer.py:92-95 | `x.get(k, d)` succeeds exactly on a dict, giving the value under `k` or `d`. On anything else it fails with "'T' object has no attribute 'get'". |
| `PyJson.Len` | app/tasks/analyzer.py:92-93 | `len(x)` succeeds exactly on a string, list or dict. On anything else it fails with "object of type 'T' has no len()". |
| `PyJson.Iter` | app/tasks/analyzer.py:93-95 | Iteration succeeds exactly on a string, list or dict and yields `len(x)` values. On anything else it fails with "'T' object is not iterable". |
| `PyJson.Lookup` | app/tasks/analyzer.py:92-95 | A dict lookup finds a value exactly when the key is among the dict's keys, and the value is the one stored with that key. |
| `Summary.IsBug` | app/tasks/analyzer.py:95 | An issue dict is critical exactly when its "type" is the string "bug". A non-dict issue raises. |
| `Summary.Summarize` | app/tasks/analyzer.py:92-96 | A successful summary implies the reply is a dict. A non-dict reply fails with Python's attribute error for its type. |
| `Summary.SummarizeOkIff` | app/tasks/analyzer.py:92-96 | The three counts succeed exactly when the reply is a dict whose files value, and each file's issues value, yields only dicts: a list of dicts, `""` or `{}`. |
| `Summary.SummarizeCounts` | app/tasks/analyzer.py:92-96 | `total_files` is the number of files. `total_issues` is the number of all their issues. `critical_issues` is the number of issues whose type is exactly "bug". |
| `Summary.CriticalWithinTotal` | app/tasks/analyzer.py:94-96 | `critical_issues` never exceeds `total_issues`. |
| `Summary.NoFilesKey` | app/tasks/analyzer.py:92 | A reply dict without "files" summarises to 0 files, 0 issues, 0 critical. |
| `Summary.Bugs` | app/tasks/analyzer.py:94-96 | The critical issues are some of the issues, each with type "bug", and never more than there are issues. |
| `Summary.BugsAppend` | app/tasks/analyzer.py:94-96 | The critical issues of two issue lists taken together are those of each list, one after the other. |
| `Summary.OneBugExample` | app/tasks/analyzer.py:92-96 | One file with one issue of type "bug" gives the summary (1, 1, 1). |
| `Summary.NonBugExample` | app/tasks/analyzer.py:94-96 | One file with one issue of any other type gives the summary (1, 1, 0). |
| `Summary.ModelSummaryReplaced` | app/tasks/analyzer.py:98-109 | A reply `{"files": [], "summary": <anything>}` ends with the computed zero summary in place of the model's. |
| `PyJson.PutSpec` | app/tasks/analyzer.py:101-108 | `{**parsed, "summary": s}` maps "summary" to `s` and agrees with `parsed` on every other key. It keeps the key order, with "summary" last when it was absent. |
| `PyJson.Put` | app/tasks/analyzer.py:101-108 | The merged dict has as many keys as the reply, plus one when the reply had no "summary". |
| `Task.Analyze` | app/tasks/analyzer.py:11-120 | Every record the task produces carries the task's own id. |
| `Task.Payload` | app/tasks/analyzer.py:98-109 | The saved dict holds "task_id", a "status" of "failed" or "completed", and "error" or "results" to match. |
| `Task.AnalyzePullRequest` | app/tasks/analyzer.py:11-120 | The task saves exactly `Payload(Analyze(...))` under its id and changes no other entry of the store. |
| `Task.FetchFailureRecorded` | app/tasks/analyzer.py:25-33 | A failed GitHub request gives `failed` with "GitHub API error: " followed by the message. |
| `Task.NoChangesRecorded` | app/tasks/analyzer.py:42-44 | With no non-empty patch, the record is `failed` with "No valid file changes found.", and the model's answers do not matter. |
| `Task.ModelSeesOnlyPrompt` | app/tasks/analyzer.py:80-90 | Two models that answer the prompt alike lead to the same record. |
| `Task.AiFailureRecorded` | app/tasks/analyzer.py:86-120 | Once there is something to review, a failed model call or an undecodable reply gives `failed` with "AI call failed: " followed by the message. |
| `Task.SummaryFailureRecorded` | app/tasks/analyzer.py:92-120 | A reply that decodes but cannot be summarised gives `failed` with "AI call failed: " followed by the text of the exception the counting raised. |
| `Task.CompletedIff` | app/tasks/analyzer.py:25-120 | The record is `completed` exactly when the fetch succeeded, some file had a patch, the reply decoded, and the reply is summarisable. Any failure message starts with one of the three fixed texts. |
| `Task.CompletedResults` | app/tasks/analyzer.py:92-109 | A completed record keeps every reply key and value except "summary", which holds the computed counts in the reply's key order. Critical never exceeds total. |
| `ResultStore.Store.Save` | app/core/utils.py:22-23 | Saving sets the entry for the task id and leaves the others as they were. |

## Left out

- The HTTP request to GitHub, including `raise_for_status` and `response.json()`, is not modelled. Its outcome is the `fetch` parameter. The model call, the OpenRouter POST and `json.loads` of the reply are likewise not modelled, and their combined outcome is the `ask` parameter. Both are network I/O or library code.
- The text of an exception raised by those calls (`str(e)`) is an input string. The model does not reproduce the messages of `requests` or `json`.
- A changed file with a non-empty patch but no `filename` key raises `KeyError` outside any `try`, so the task fails with nothing saved; this is not modelled, since GitHub gives every entry a filename. An entry with neither a filename nor a non-empty patch is skipped without error, which the model covers, as any filename gives the same blocks.
- A fetched body that is not a list is not modelled. An empty dict or string iterates zero times and gives "No valid file changes found."; a non-empty dict or string (`str` has no `get`) or a body that cannot be iterated raises outside any `try`, and nothing is saved. GitHub's successful answer is a list.
- Decoded dicts with a repeated key are not excluded by the `Json` type, though `json.loads` never produces one (it keeps the last value). On such a value `PyJson.Lookup` takes the first member, `PyJson.Len` counts both and `PyJson.Put` replaces only the first. No lemma relies on distinct keys.
- A `patch` value that is not a string is not modelled. GitHub sends a string or omits the key, and an explicit `null` is treated as a missing patch.
- JSON floats are kept only by their literal. Nothing in the task reads their value.
- A failure of the store itself, which inside the last `try` would turn into a second save attempt, is not modelled. The store's one-hour expiry and the JSON encoding of saved records are not modelled either.
- The Celery queue, task ids and status, the FastAPI endpoints, logging and configuration are not modelled. The task id is an opaque string parameter, and the API base URL is a constant.
- The model client's temperature and other float settings are not modelled. They only pass through to the provider.
- Task.Analyze: its own contract only says that the record carries the task id. The full behaviour is stated in `Task.CompletedIff`, `Task.CompletedResults` and the failure lemmas `Task.FetchFailureRecorded`, `Task.NoChangesRecorded`, `Task.AiFailureRecorded` and `Task.SummaryFailureRecorded`.
