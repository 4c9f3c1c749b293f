/**
  The review input: of the files a pull request changes, only those with a non-empty patch
  are kept, each rendered as a fixed-format text block, in the order GitHub listed them.
 */
module InputFiles {
  import opened Wrappers

  /** One entry of GitHub's list of changed files; a binary or oversized file has no patch. */
  datatype ChangedFile = ChangedFile(filename: string, patch: Option<string>)

  /** `if patch:` — a missing patch and an empty one are both falsy. */
  predicate HasPatch(f: ChangedFile) {
    f.patch.Some? && f.patch.value != ""
  }

  /** The text block one kept file contributes to the prompt. */
  function Block(f: ChangedFile): string
    requires HasPatch(f)
  {
    "File: " + f.filename + "\nPatch:\n" + f.patch.value + "\n\n"
  }

  /** The blocks of the files that have a patch, in input order. */
  function InputBlocks(files: seq<ChangedFile>): seq<string> {
    if |files| == 0 then []
    else
      var last := files[|files| - 1];
      InputBlocks(files[..|files| - 1]) + (if HasPatch(last) then [Block(last)] else [])
  }

  /** The positions, in increasing order, of the files that have a patch: a reference for InputBlocks. */
  function KeptIndices(files: seq<ChangedFile>): seq<nat> {
    if |files| == 0 then []
    else
      var n := |files| - 1;
      KeptIndices(files[..n]) + (if HasPatch(files[n]) then [n] else [])
  }

  /**
    The `for` loop that fills `input_files`: it visits the files in order and appends the
    block of each file whose patch is non-empty.
   */
  method CollectInputFiles(files: seq<ChangedFile>) returns (inputFiles: seq<string>)
    ensures inputFiles == InputBlocks(files)
  {
    inputFiles := [];
    var i := 0;
    while i < |files|
      invariant 0 <= i <= |files|
      invariant inputFiles == InputBlocks(files[..i])
    {
      var file := files[i];
      var patch := file.patch;
      assert files[..i + 1][..i] == files[..i];
      if patch.Some? && patch.value != "" {
        inputFiles := inputFiles + [Block(file)];
      }
      i := i + 1;
    }
    assert files[..i] == files;
  }

  /**
    KeptIndices lists exactly the positions of the files with a patch, strictly increasing:
    every listed position has a patch, and every position with a patch is listed.
   */
  lemma {:induction false} KeptIndicesExact(files: seq<ChangedFile>)
    ensures forall k :: 0 <= k < |KeptIndices(files)| ==>
      KeptIndices(files)[k] < |files| && HasPatch(files[KeptIndices(files)[k]])
    ensures forall k, l :: 0 <= k < l < |KeptIndices(files)| ==>
      KeptIndices(files)[k] < KeptIndices(files)[l]
    ensures forall j :: 0 <= j < |files| && HasPatch(files[j]) ==> j in KeptIndices(files)
  {
    if |files| > 0 {
      var n := |files| - 1;
      var front := files[..n];
      KeptIndicesExact(front);
      assert forall j :: 0 <= j < n ==> front[j] == files[j];
    }
  }

  /**
    The k-th block is the block of the k-th kept file: one block per file with a non-empty
    patch, in the files' relative order, and nothing else.
   */
  lemma {:induction false} InputBlocksFollowKept(files: seq<ChangedFile>)
    ensures |InputBlocks(files)| == |KeptIndices(files)|
    ensures forall k :: 0 <= k < |InputBlocks(files)| ==>
      KeptIndices(files)[k] < |files| && HasPatch(files[KeptIndices(files)[k]]) &&
      InputBlocks(files)[k] == Block(files[KeptIndices(files)[k]])
  {
    KeptIndicesExact(files);
    if |files| > 0 {
      var n := |files| - 1;
      var front := files[..n];
      InputBlocksFollowKept(front);
      assert forall j :: 0 <= j < n ==> front[j] == files[j];
    }
  }

  /** No block is produced exactly when no file has a non-empty patch. */
  lemma InputBlocksEmptyIff(files: seq<ChangedFile>)
    ensures InputBlocks(files) == [] <==> forall j :: 0 <= j < |files| ==> !HasPatch(files[j])
  {
    InputBlocksFollowKept(files);
    KeptIndicesExact(files);
    if InputBlocks(files) != [] {
      assert HasPatch(files[KeptIndices(files)[0]]);
    }
  }

  /** The blocks of two consecutive runs of files are the blocks of each run, one after the other. */
  lemma {:induction false} InputBlocksAppend(a: seq<ChangedFile>, b: seq<ChangedFile>)
    ensures InputBlocks(a + b) == InputBlocks(a) + InputBlocks(b)
    decreases |b|
  {
    if |b| > 0 {
      var n := |b| - 1;
      assert (a + b)[..|a + b| - 1] == a + b[..n];
      assert (a + b)[|a + b| - 1] == b[n];
      InputBlocksAppend(a, b[..n]);
    } else {
      assert a + b == a;
    }
  }

  /** A file without a usable patch can be dropped from anywhere in the list without changing the blocks. */
  lemma SkipUnpatched(a: seq<ChangedFile>, f: ChangedFile, b: seq<ChangedFile>)
    requires !HasPatch(f)
    ensures InputBlocks(a + [f] + b) == InputBlocks(a + b)
  {
    InputBlocksAppend(a + [f], b);
    InputBlocksAppend(a, [f]);
    assert [f][..0] == [];
    InputBlocksAppend(a, b);
  }
}
