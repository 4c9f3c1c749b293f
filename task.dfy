/**
  The background task `analyze_pull_request`: fetch the changed files of a pull request,
  build the review input and the prompt, ask the model, summarise its decoded reply, and
  save one final record, "failed" or "completed", under the task id.

  The two remote calls are parameters: `fetch` stands for the GitHub request (with its
  status check and body decoding) and `ask` for the model call followed by `json.loads`.
 */
module Task {
  import opened Wrappers
  import opened PyJson
  import opened Request
  import opened InputFiles
  import opened Prompt
  import opened Summary
  import opened ResultStore

  /** What the GitHub request gives: the raised exception's text, or the list of changed files. */
  datatype FetchOutcome = FetchFailed(message: string) | Fetched(files: seq<ChangedFile>)

  /** What the model call and the decoding of its reply give: an exception's text, or the decoded value. */
  datatype AiOutcome = AiFailed(message: string) | AiParsed(value: Json)

  /** The final record of one task; `results` is the reply dict with the computed summary. */
  datatype TaskRecord =
    | Failed(taskId: string, error: string)
    | Completed(taskId: string, results: seq<Member>)

  const GithubErrorPrefix: string := "GitHub API error: "
  const NoChangesError: string := "No valid file changes found."
  const AiErrorPrefix: string := "AI call failed: "

  /** The record the task saves, as a function of its inputs and of the answers of the two remote calls. */
  function Analyze(
    taskId: string, repoUrl: string, prNumber: int, githubToken: Option<string>,
    fetch: (string, Headers) -> FetchOutcome, ask: string -> AiOutcome): (r: TaskRecord)
    ensures r.taskId == taskId
  {
    match fetch(FilesUrl(repoUrl, prNumber), AuthHeaders(githubToken))
    case FetchFailed(message) => Failed(taskId, GithubErrorPrefix + message)
    case Fetched(files) =>
      var inputFiles := InputBlocks(files);
      if inputFiles == [] then Failed(taskId, NoChangesError)
      else
        match ask(BuildPrompt(inputFiles))
        case AiFailed(message) => Failed(taskId, AiErrorPrefix + message)
        case AiParsed(parsed) =>
          match Summarize(parsed)
          case Err(message) => Failed(taskId, AiErrorPrefix + message)
          case Ok(summary) => Completed(taskId, Put(parsed.members, "summary", SummaryJson(summary)))
  }

  /** The dict saved for a record. */
  function Payload(r: TaskRecord): (j: Json)
    ensures j.JObj?
    ensures Lookup(j.members, "task_id") == Some(JStr(r.taskId))
    ensures Lookup(j.members, "status") == Some(JStr(if r.Failed? then "failed" else "completed"))
    ensures r.Failed? ==> Lookup(j.members, "error") == Some(JStr(r.error))
    ensures r.Completed? ==> Lookup(j.members, "results") == Some(JObj(r.results))
  {
    match r
    case Failed(taskId, error) =>
      JObj([Member("task_id", JStr(taskId)), Member("status", JStr("failed")), Member("error", JStr(error))])
    case Completed(taskId, results) =>
      JObj([Member("task_id", JStr(taskId)), Member("status", JStr("completed")), Member("results", JObj(results))])
  }

  /**
    The task itself: each stage either saves a failure record and returns early, or passes
    its result on; the last stage saves the completed record.
   */
  method AnalyzePullRequest(
    store: Store, taskId: string, repoUrl: string, prNumber: int, githubToken: Option<string>,
    fetch: (string, Headers) -> FetchOutcome, ask: string -> AiOutcome)
    modifies store
    ensures store.entries ==
      old(store.entries)[taskId := Payload(Analyze(taskId, repoUrl, prNumber, githubToken, fetch, ask))]
  {
    var headers := AuthHeaders(githubToken);
    var filesUrl := FilesUrl(repoUrl, prNumber);
    var response := fetch(filesUrl, headers);
    if response.FetchFailed? {
      store.Save(taskId, Payload(Failed(taskId, GithubErrorPrefix + response.message)));
      return;
    }
    var inputFiles := CollectInputFiles(response.files);
    if |inputFiles| == 0 {
      store.Save(taskId, Payload(Failed(taskId, NoChangesError)));
      return;
    }
    var prompt := BuildPrompt(inputFiles);
    var reply := ask(prompt);
    if reply.AiFailed? {
      store.Save(taskId, Payload(Failed(taskId, AiErrorPrefix + reply.message)));
      return;
    }
    var parsedResult := reply.value;
    var summary := Summarize(parsedResult);
    if summary.Err? {
      store.Save(taskId, Payload(Failed(taskId, AiErrorPrefix + summary.error)));
      return;
    }
    var finalResult := Completed(taskId, Put(parsedResult.members, "summary", SummaryJson(summary.value)));
    store.Save(taskId, Payload(finalResult));
  }

  // ---------------------------------------------------------------------------------------
  // What the task promises, case by case.

  /** A failed GitHub request is recorded with the prefix "GitHub API error: " and its message. */
  lemma FetchFailureRecorded(
    taskId: string, repoUrl: string, prNumber: int, githubToken: Option<string>,
    fetch: (string, Headers) -> FetchOutcome, ask: string -> AiOutcome)
    requires fetch(FilesUrl(repoUrl, prNumber), AuthHeaders(githubToken)).FetchFailed?
    ensures Analyze(taskId, repoUrl, prNumber, githubToken, fetch, ask) ==
      Failed(taskId, GithubErrorPrefix + fetch(FilesUrl(repoUrl, prNumber), AuthHeaders(githubToken)).message)
  {
  }

  /**
    When no changed file has a non-empty patch, the record is the fixed failure, and the
    model is not consulted: any other model gives the same record.
   */
  lemma NoChangesRecorded(
    taskId: string, repoUrl: string, prNumber: int, githubToken: Option<string>,
    fetch: (string, Headers) -> FetchOutcome, ask: string -> AiOutcome, otherAsk: string -> AiOutcome)
    requires fetch(FilesUrl(repoUrl, prNumber), AuthHeaders(githubToken)).Fetched?
    requires var files := fetch(FilesUrl(repoUrl, prNumber), AuthHeaders(githubToken)).files;
      forall j :: 0 <= j < |files| ==> !HasPatch(files[j])
    ensures Analyze(taskId, repoUrl, prNumber, githubToken, fetch, ask) == Failed(taskId, NoChangesError)
    ensures Analyze(taskId, repoUrl, prNumber, githubToken, fetch, otherAsk) == Failed(taskId, NoChangesError)
  {
    InputBlocksEmptyIff(fetch(FilesUrl(repoUrl, prNumber), AuthHeaders(githubToken)).files);
  }

  /** The prompt the model receives, when the task gets as far as asking it. */
  function PromptFor(files: seq<ChangedFile>): string {
    BuildPrompt(InputBlocks(files))
  }

  /**
    The model sees nothing but the prompt: two models that answer that prompt alike lead
    to the same record.
   */
  lemma ModelSeesOnlyPrompt(
    taskId: string, repoUrl: string, prNumber: int, githubToken: Option<string>,
    fetch: (string, Headers) -> FetchOutcome, ask: string -> AiOutcome, otherAsk: string -> AiOutcome)
    requires fetch(FilesUrl(repoUrl, prNumber), AuthHeaders(githubToken)).Fetched?
    requires var files := fetch(FilesUrl(repoUrl, prNumber), AuthHeaders(githubToken)).files;
      ask(PromptFor(files)) == otherAsk(PromptFor(files))
    ensures Analyze(taskId, repoUrl, prNumber, githubToken, fetch, ask) ==
      Analyze(taskId, repoUrl, prNumber, githubToken, fetch, otherAsk)
  {
  }

  /**
    A failed model call or an undecodable reply is recorded with the prefix "AI call failed: "
    and its message, once some file had a patch to review.
   */
  lemma AiFailureRecorded(
    taskId: string, repoUrl: string, prNumber: int, githubToken: Option<string>,
    fetch: (string, Headers) -> FetchOutcome, ask: string -> AiOutcome)
    requires fetch(FilesUrl(repoUrl, prNumber), AuthHeaders(githubToken)).Fetched?
    requires var files := fetch(FilesUrl(repoUrl, prNumber), AuthHeaders(githubToken)).files;
      exists j :: 0 <= j < |files| && HasPatch(files[j])
    requires var files := fetch(FilesUrl(repoUrl, prNumber), AuthHeaders(githubToken)).files;
      ask(PromptFor(files)).AiFailed?
    ensures var files := fetch(FilesUrl(repoUrl, prNumber), AuthHeaders(githubToken)).files;
      Analyze(taskId, repoUrl, prNumber, githubToken, fetch, ask) ==
        Failed(taskId, AiErrorPrefix + ask(PromptFor(files)).message)
  {
    InputBlocksEmptyIff(fetch(FilesUrl(repoUrl, prNumber), AuthHeaders(githubToken)).files);
  }

  /**
    A reply that decodes but cannot be summarised (not a dict, a "files" value that is not a
    list of dicts, an issue that is not a dict, ...) is recorded with the prefix
    "AI call failed: " and the text of the exception the counting raised.
   */
  lemma SummaryFailureRecorded(
    taskId: string, repoUrl: string, prNumber: int, githubToken: Option<string>,
    fetch: (string, Headers) -> FetchOutcome, ask: string -> AiOutcome)
    requires fetch(FilesUrl(repoUrl, prNumber), AuthHeaders(githubToken)).Fetched?
    requires var files := fetch(FilesUrl(repoUrl, prNumber), AuthHeaders(githubToken)).files;
      exists j :: 0 <= j < |files| && HasPatch(files[j])
    requires var files := fetch(FilesUrl(repoUrl, prNumber), AuthHeaders(githubToken)).files;
      ask(PromptFor(files)).AiParsed? && Summarize(ask(PromptFor(files)).value).Err?
    ensures var files := fetch(FilesUrl(repoUrl, prNumber), AuthHeaders(githubToken)).files;
      Analyze(taskId, repoUrl, prNumber, githubToken, fetch, ask) ==
        Failed(taskId, AiErrorPrefix + Summarize(ask(PromptFor(files)).value).error)
  {
    InputBlocksEmptyIff(fetch(FilesUrl(repoUrl, prNumber), AuthHeaders(githubToken)).files);
  }

  /**
    The task completes exactly when GitHub answered, some file had a non-empty patch, the
    model's reply decoded, and the reply is one the analyzer can summarise. Otherwise the
    record is a failure whose message starts with one of the three fixed texts.
   */
  lemma CompletedIff(
    taskId: string, repoUrl: string, prNumber: int, githubToken: Option<string>,
    fetch: (string, Headers) -> FetchOutcome, ask: string -> AiOutcome)
    ensures var response := fetch(FilesUrl(repoUrl, prNumber), AuthHeaders(githubToken));
      Analyze(taskId, repoUrl, prNumber, githubToken, fetch, ask).Completed? <==>
        && response.Fetched?
        && (exists j :: 0 <= j < |response.files| && HasPatch(response.files[j]))
        && ask(PromptFor(response.files)).AiParsed?
        && Summarizable(ask(PromptFor(response.files)).value)
    ensures var r := Analyze(taskId, repoUrl, prNumber, githubToken, fetch, ask);
      r.Failed? ==>
        || (|GithubErrorPrefix| <= |r.error| && r.error[..|GithubErrorPrefix|] == GithubErrorPrefix)
        || r.error == NoChangesError
        || (|AiErrorPrefix| <= |r.error| && r.error[..|AiErrorPrefix|] == AiErrorPrefix)
  {
    var response := fetch(FilesUrl(repoUrl, prNumber), AuthHeaders(githubToken));
    if response.Fetched? {
      InputBlocksEmptyIff(response.files);
      var reply := ask(PromptFor(response.files));
      if reply.AiParsed? {
        SummarizeOkIff(reply.value);
      }
    }
  }

  /**
    A completed record holds every key of the model's reply with its value, except that
    "summary" holds the computed counts, replacing any summary the model wrote; the keys keep
    the reply's order, with "summary" added last when the reply had none. The counts are the
    number of files, of all their issues, and of the issues whose type is exactly "bug".
   */
  lemma CompletedResults(
    taskId: string, repoUrl: string, prNumber: int, githubToken: Option<string>,
    fetch: (string, Headers) -> FetchOutcome, ask: string -> AiOutcome, key: string)
    requires Analyze(taskId, repoUrl, prNumber, githubToken, fetch, ask).Completed?
    ensures var response := fetch(FilesUrl(repoUrl, prNumber), AuthHeaders(githubToken));
      response.Fetched? && ask(PromptFor(response.files)).AiParsed?
    ensures var response := fetch(FilesUrl(repoUrl, prNumber), AuthHeaders(githubToken));
      var parsed := ask(PromptFor(response.files)).value;
      var results := Analyze(taskId, repoUrl, prNumber, githubToken, fetch, ask).results;
      var files := Entries(FieldOr(parsed, "files", NoItems));
      && parsed.JObj?
      && Lookup(results, "summary") ==
           Some(SummaryJson(Summary(|files|, |AllIssues(files)|, |Bugs(AllIssues(files))|)))
      && (key != "summary" ==> Lookup(results, key) == Lookup(parsed.members, key))
      && |Bugs(AllIssues(files))| <= |AllIssues(files)|
      && Keys(results) ==
           (if "summary" in Keys(parsed.members) then Keys(parsed.members)
            else Keys(parsed.members) + ["summary"])
  {
    var response := fetch(FilesUrl(repoUrl, prNumber), AuthHeaders(githubToken));
    var parsed := ask(PromptFor(response.files)).value;
    SummarizeOkIff(parsed);
    SummarizeCounts(parsed);
    PutSpec(parsed.members, "summary", SummaryJson(Summarize(parsed).value), key);
  }
}
