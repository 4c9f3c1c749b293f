/**
  The prompt sent to the language model: fixed review instructions with an example of the
  JSON to return, the header "Code changes:", and the per-file blocks joined by newlines.
 */
module Prompt {
  import opened PyStr
  import opened InputFiles

  /**
    The fixed instructions, character for character. The analyzer writes them as adjacent
    string literals, so the four review criteria run together with no separator between them.
   */
  const Preamble: string :=
    "You are a senior code review assistant.\n\n"
    + "Analyze the following code changes according to these : "
    + "- Code style and formatting issues"
    + "- Potential bugs or errors"
    + "- Performance improvements"
    + "- Best practices"
    + "and return a structured JSON with:\n"
    + "- filename\n"
    + "- line number (if available)\n"
    + "- type \n"
    + "- description\n"
    + "- suggestion\n\n"
    + "Respond ONLY in JSON using this format:\n\n"
    + "{\n"
    + "  \"files\": [\n"
    + "    {\n"
    + "      \"name\": \"file.py\",\n"
    + "      \"issues\": [\n"
    + "        {\n"
    + "          \"type\": \"style\",\n"
    + "          \"line\": 10,\n"
    + "          \"description\": \"Line too long\",\n"
    + "          \"suggestion\": \"Break line into multiple lines\"\n"
    + "        }\n"
    + "      ]\n"
    + "    }\n"
    + "  ]\n"
    + "}\n\n"

  const CodeChangesHeader: string := "Code changes:\n"

  /** Where the joined blocks begin in every prompt. */
  const BlocksStart: nat := |Preamble| + |CodeChangesHeader|

  /** The prompt for the given blocks. */
  function BuildPrompt(inputFiles: seq<string>): (p: string)
    ensures BlocksStart <= |p|
    ensures p[..|Preamble|] == Preamble
    ensures p[|Preamble|..BlocksStart] == CodeChangesHeader
    ensures p[BlocksStart..] == Join("\n", inputFiles)
  {
    Preamble + CodeChangesHeader + Join("\n", inputFiles)
  }

  /**
    Each block stands whole in the prompt after the fixed text, and a block that is not the
    last is followed by one newline and then, at the next offset, the next block.
   */
  lemma BlockInPrompt(inputFiles: seq<string>, k: nat)
    requires k < |inputFiles|
    ensures var o := BlocksStart + JoinOffset("\n", inputFiles, k);
      o + |inputFiles[k]| <= |BuildPrompt(inputFiles)| &&
      BuildPrompt(inputFiles)[o..o + |inputFiles[k]|] == inputFiles[k]
    ensures k + 1 < |inputFiles| ==>
      var o := BlocksStart + JoinOffset("\n", inputFiles, k) + |inputFiles[k]|;
      BlocksStart + JoinOffset("\n", inputFiles, k + 1) == o + 1 &&
      o < |BuildPrompt(inputFiles)| && BuildPrompt(inputFiles)[o] == '\n'
  {
    var head := Preamble + CodeChangesHeader;
    var j := Join("\n", inputFiles);
    assert BuildPrompt(inputFiles) == head + j;
    assert |head| == BlocksStart;
    JoinAt("\n", inputFiles, k);
    var o := JoinOffset("\n", inputFiles, k);
    SliceRight(head, j, |head| + o, |head| + o + |inputFiles[k]|);
    if k + 1 < |inputFiles| {
      JoinOffsetNext("\n", inputFiles, k);
      var e := o + |inputFiles[k]|;
      SliceRight(head, j, |head| + e, |head| + e + 1);
      assert j[e..e + 1] == "\n";
    }
  }

  /** The prompt ends with the last block; with no blocks it ends with the header. */
  lemma PromptEnds(inputFiles: seq<string>)
    ensures inputFiles == [] ==> BuildPrompt(inputFiles) == Preamble + CodeChangesHeader
    ensures inputFiles != [] ==>
      var k := |inputFiles| - 1;
      BlocksStart + JoinOffset("\n", inputFiles, k) + |inputFiles[k]| == |BuildPrompt(inputFiles)|
  {
    if inputFiles != [] {
      JoinLastEnds("\n", inputFiles);
    }
  }

  /**
    For the changed files of a pull request: the k-th kept file's block, "File: <name>",
    "Patch:", its patch, stands whole in the prompt, and kept files appear in their order.
   */
  lemma KeptFileInPrompt(files: seq<ChangedFile>, k: nat)
    requires k < |KeptIndices(files)|
    ensures |InputBlocks(files)| == |KeptIndices(files)|
    ensures KeptIndices(files)[k] < |files| && HasPatch(files[KeptIndices(files)[k]])
    ensures var blocks := InputBlocks(files);
      var f := files[KeptIndices(files)[k]];
      var o := BlocksStart + JoinOffset("\n", blocks, k);
      o + |Block(f)| <= |BuildPrompt(blocks)| &&
      BuildPrompt(blocks)[o..o + |Block(f)|] == Block(f)
  {
    InputBlocksFollowKept(files);
    BlockInPrompt(InputBlocks(files), k);
  }

  /** The prompt depends only on the files with a patch: adding a patch-less file anywhere leaves it unchanged. */
  lemma PromptIgnoresUnpatched(a: seq<ChangedFile>, f: ChangedFile, b: seq<ChangedFile>)
    requires !HasPatch(f)
    ensures BuildPrompt(InputBlocks(a + [f] + b)) == BuildPrompt(InputBlocks(a + b))
  {
    SkipUnpatched(a, f, b);
  }
}
