/**
  The summary the analyzer computes from the model's decoded reply: the number of reviewed
  files, of issues, and of critical issues (those whose type is exactly "bug"). The three
  counts are computed one after the other, as Python evaluates them, and each fails the way
  Python would on a reply of an unexpected shape.
 */
module Summary {
  import opened Wrappers
  import opened PyJson

  datatype Summary = Summary(totalFiles: nat, totalIssues: nat, criticalIssues: nat)

  const NoItems: Json := JArr([])

  /** `parsed_result.get("files", [])` */
  function FilesValue(parsed: Json): Result<Json> {
    GetOr(parsed, "files", NoItems)
  }

  /** `f.get("issues", [])` */
  function IssuesValue(f: Json): Result<Json> {
    GetOr(f, "issues", NoItems)
  }

  /** `i.get("type") == "bug"`: only the string "bug" itself is critical. */
  function IsBug(issue: Json): (r: Result<bool>)
    ensures r.Ok? <==> issue.JObj?
    ensures r.Ok? ==> r.value == (FieldOr(issue, "type", JNull) == JStr("bug"))
  {
    var t :- GetOr(issue, "type", JNull);
    Ok(t == JStr("bug"))
  }

  /** `len(parsed_result.get("files", []))` */
  function TotalFiles(parsed: Json): Result<nat> {
    var files :- FilesValue(parsed);
    Len(files)
  }

  /** `sum(len(f.get("issues", [])) for f in files)`, failing at the first file that fails. */
  function SumIssueLengths(files: seq<Json>): Result<nat> {
    if |files| == 0 then Ok(0)
    else
      var issues :- IssuesValue(files[0]);
      var n :- Len(issues);
      var rest :- SumIssueLengths(files[1..]);
      Ok(n + rest)
  }

  function TotalIssues(parsed: Json): Result<nat> {
    var files :- FilesValue(parsed);
    var fs :- Iter(files);
    SumIssueLengths(fs)
  }

  /** `sum(1 for i in issues if i.get("type") == "bug")` */
  function CountBugs(issues: seq<Json>): Result<nat> {
    if |issues| == 0 then Ok(0)
    else
      var bug :- IsBug(issues[0]);
      var rest :- CountBugs(issues[1..]);
      Ok((if bug then 1 else 0) + rest)
  }

  /** `sum(1 for f in files for i in f.get("issues", []) if i.get("type") == "bug")` */
  function CountCritical(files: seq<Json>): Result<nat> {
    if |files| == 0 then Ok(0)
    else
      var issues :- IssuesValue(files[0]);
      var items :- Iter(issues);
      var here :- CountBugs(items);
      var rest :- CountCritical(files[1..]);
      Ok(here + rest)
  }

  function CriticalIssues(parsed: Json): Result<nat> {
    var files :- FilesValue(parsed);
    var fs :- Iter(files);
    CountCritical(fs)
  }

  /** The three counts in the order the Python task computes them; the first exception wins. */
  function Summarize(parsed: Json): (r: Result<Summary>)
    ensures r.Ok? ==> parsed.JObj?
    ensures !parsed.JObj? ==> r == Err("'" + TypeName(parsed) + "' object has no attribute 'get'")
  {
    var totalFiles :- TotalFiles(parsed);
    var totalIssues :- TotalIssues(parsed);
    var criticalIssues :- CriticalIssues(parsed);
    Ok(Summary(totalFiles, totalIssues, criticalIssues))
  }

  /** The summary as the dict stored under "summary". */
  function SummaryJson(s: Summary): Json {
    JObj([
      Member("total_files", JInt(s.totalFiles)),
      Member("total_issues", JInt(s.totalIssues)),
      Member("critical_issues", JInt(s.criticalIssues))
    ])
  }

  // ---------------------------------------------------------------------------------------
  // A declarative account of the counts, and the proof that the computation meets it.

  /** Iterating `v` yields only dicts: a list of dicts, or an empty string or dict. */
  predicate DictsOnly(v: Json) {
    match v
    case JArr(items) => forall x :: x in items ==> x.JObj?
    case JStr(s) => s == ""
    case JObj(members) => members == []
    case _ => false
  }

  /** The entries of a list, and none for any other value. */
  function Entries(v: Json): seq<Json> {
    match v
    case JArr(items) => items
    case _ => []
  }

  /** The issue list of a reviewed file, `[]` when it has none. */
  function IssuesOf(f: Json): Json {
    FieldOr(f, "issues", NoItems)
  }

  /** A reply the Python task can summarise: a dict whose files, and each file's issues, are dicts. */
  predicate Summarizable(parsed: Json) {
    && parsed.JObj?
    && DictsOnly(FieldOr(parsed, "files", NoItems))
    && forall f :: f in Entries(FieldOr(parsed, "files", NoItems)) ==> DictsOnly(IssuesOf(f))
  }

  /** All issues of all files, file by file. */
  function AllIssues(files: seq<Json>): seq<Json> {
    if |files| == 0 then [] else Entries(IssuesOf(files[0])) + AllIssues(files[1..])
  }

  predicate Critical(issue: Json) {
    FieldOr(issue, "type", JNull) == JStr("bug")
  }

  /** The critical issues among `issues`, in order. */
  function Bugs(issues: seq<Json>): (r: seq<Json>)
    ensures |r| <= |issues|
    ensures forall x :: x in r ==> x in issues && Critical(x)
  {
    if |issues| == 0 then []
    else (if Critical(issues[0]) then [issues[0]] else []) + Bugs(issues[1..])
  }

  lemma {:induction false} BugsAppend(a: seq<Json>, b: seq<Json>)
    ensures Bugs(a + b) == Bugs(a) + Bugs(b)
    decreases |a|
  {
    if |a| == 0 {
      assert a + b == b;
    } else {
      assert (a + b)[0] == a[0];
      assert (a + b)[1..] == a[1..] + b;
      BugsAppend(a[1..], b);
    }
  }

  /** The values of the iteration over `v` are all dicts exactly when `v` is DictsOnly; they are then its entries. */
  lemma IterDictsOnly(v: Json)
    ensures (Iter(v).Ok? && forall x :: x in Iter(v).value ==> x.JObj?) <==> DictsOnly(v)
    ensures DictsOnly(v) ==> Iter(v).value == Entries(v)
  {
    match v
    case JStr(s) =>
      if s != "" {
        assert Iter(v).value[0] in Iter(v).value;
      } else {
        assert Iter(v).value == [];
      }
    case JObj(members) =>
      if members != [] {
        assert Iter(v).value[0] in Iter(v).value;
      }
    case _ =>
  }

  lemma {:induction false} CountBugsCorrect(issues: seq<Json>)
    ensures CountBugs(issues).Ok? <==> forall x :: x in issues ==> x.JObj?
    ensures CountBugs(issues).Ok? ==> CountBugs(issues).value == |Bugs(issues)|
    decreases |issues|
  {
    if |issues| > 0 {
      CountBugsCorrect(issues[1..]);
      assert forall x :: x in issues ==> x == issues[0] || x in issues[1..];
    }
  }

  lemma {:induction false} SumIssueLengthsCorrect(files: seq<Json>)
    ensures SumIssueLengths(files).Ok? <==>
      forall f :: f in files ==> f.JObj? && Sized(IssuesOf(f))
    ensures SumIssueLengths(files).Ok? && (forall f :: f in files ==> DictsOnly(IssuesOf(f))) ==>
      SumIssueLengths(files).value == |AllIssues(files)|
    decreases |files|
  {
    if |files| > 0 {
      SumIssueLengthsCorrect(files[1..]);
      assert forall x :: x in files ==> x == files[0] || x in files[1..];
    }
  }

  lemma {:induction false} CountCriticalCorrect(files: seq<Json>)
    ensures CountCritical(files).Ok? <==>
      forall f :: f in files ==> f.JObj? && DictsOnly(IssuesOf(f))
    ensures CountCritical(files).Ok? ==> CountCritical(files).value == |Bugs(AllIssues(files))|
    decreases |files|
  {
    if |files| > 0 {
      var f := files[0];
      CountCriticalCorrect(files[1..]);
      assert forall x :: x in files ==> x == f || x in files[1..];
      IterDictsOnly(IssuesOf(f));
      if f.JObj? && Iter(IssuesOf(f)).Ok? {
        CountBugsCorrect(Iter(IssuesOf(f)).value);
      }
      BugsAppend(Entries(IssuesOf(f)), AllIssues(files[1..]));
    }
  }

  /**
    The Python task completes the summary exactly for the replies that are Summarizable; for any
    other reply it raises, and the task records a failure.
   */
  lemma SummarizeOkIff(parsed: Json)
    ensures Summarize(parsed).Ok? <==> Summarizable(parsed)
  {
    if parsed.JObj? {
      var files := FieldOr(parsed, "files", NoItems);
      IterDictsOnly(files);
      if Iter(files).Ok? {
        SumIssueLengthsCorrect(Iter(files).value);
        CountCriticalCorrect(Iter(files).value);
      }
    }
  }

  /**
    For a reply it can summarise, `total_files` is the number of files (0 without a "files"
    key), `total_issues` the number of all their issues, and `critical_issues` the number of
    those whose type is exactly "bug".
   */
  lemma SummarizeCounts(parsed: Json)
    requires Summarizable(parsed)
    ensures var files := Entries(FieldOr(parsed, "files", NoItems));
      Summarize(parsed) ==
        Ok(Summary(|files|, |AllIssues(files)|, |Bugs(AllIssues(files))|))
  {
    var files := FieldOr(parsed, "files", NoItems);
    IterDictsOnly(files);
    SumIssueLengthsCorrect(Iter(files).value);
    CountCriticalCorrect(Iter(files).value);
    SummarizeOkIff(parsed);
  }

  /** Critical issues are some of the issues: never more than `total_issues`. */
  lemma CriticalWithinTotal(parsed: Json)
    requires Summarize(parsed).Ok?
    ensures Summarize(parsed).value.criticalIssues <= Summarize(parsed).value.totalIssues
  {
    SummarizeOkIff(parsed);
    SummarizeCounts(parsed);
  }

  /** A reply dict without a "files" key summarises to zero everywhere. */
  lemma NoFilesKey(members: seq<Member>)
    requires Lookup(members, "files").None?
    ensures Summarize(JObj(members)) == Ok(Summary(0, 0, 0))
  {
    SummarizeCounts(JObj(members));
  }

  function OneIssue(issueType: string): Json {
    JObj([Member("type", JStr(issueType)), Member("description", JStr("x")), Member("suggestion", JStr("y"))])
  }

  function OneFile(issueType: string): Json {
    JObj([Member("name", JStr("a.py")), Member("issues", JArr([OneIssue(issueType)]))])
  }

  /** A reply with one file, "a.py", holding one issue of the given type. */
  function OneIssueReply(issueType: string): Json {
    JObj([Member("files", JArr([OneFile(issueType)]))])
  }

  lemma OneIssueShape(issueType: string)
    ensures Summarizable(OneIssueReply(issueType))
    ensures Entries(FieldOr(OneIssueReply(issueType), "files", NoItems)) == [OneFile(issueType)]
    ensures AllIssues([OneFile(issueType)]) == [OneIssue(issueType)]
    ensures Critical(OneIssue(issueType)) <==> issueType == "bug"
  {
    var issue, file := OneIssue(issueType), OneFile(issueType);
    assert Lookup(OneIssueReply(issueType).members, "files") == Some(JArr([file]));
    assert Lookup(file.members, "issues") == Some(JArr([issue]));
    assert Lookup(issue.members, "type") == Some(JStr(issueType));
    assert AllIssues([file]) == [issue] + AllIssues([]);
  }

  /** One file with one issue of type "bug" counts one file, one issue and one critical issue. */
  lemma OneBugExample()
    ensures Summarize(OneIssueReply("bug")) == Ok(Summary(1, 1, 1))
  {
    OneIssueShape("bug");
    assert Bugs([OneIssue("bug")]) == [OneIssue("bug")] + Bugs([]);
    SummarizeCounts(OneIssueReply("bug"));
  }

  /** Only the exact type "bug" is critical: an issue of type "style", or "Bug", is not. */
  lemma NonBugExample(issueType: string)
    requires issueType != "bug"
    ensures Summarize(OneIssueReply(issueType)) == Ok(Summary(1, 1, 0))
  {
    OneIssueShape(issueType);
    assert Bugs([OneIssue(issueType)]) == Bugs([]);
    SummarizeCounts(OneIssueReply(issueType));
  }

  /**
    A reply with no files that carries its own, wrong, summary: the computed summary takes
    the place of the model's, and the other key is kept as it was.
   */
  lemma ModelSummaryReplaced(claimed: Json)
    ensures var reply := [Member("files", JArr([])), Member("summary", claimed)];
      Summarize(JObj(reply)) == Ok(Summary(0, 0, 0)) &&
      Put(reply, "summary", SummaryJson(Summary(0, 0, 0))) ==
        [Member("files", JArr([])), Member("summary", SummaryJson(Summary(0, 0, 0)))]
  {
    var reply := [Member("files", JArr([])), Member("summary", claimed)];
    assert Entries(FieldOr(JObj(reply), "files", NoItems)) == [];
    SummarizeCounts(JObj(reply));
    assert reply[1..] == [Member("summary", claimed)];
  }
}
