/** Writing the files of a workspace to a box in batches (packages/adapters/src/box-sandbox.ts). */
module WorkspaceImport {
  import opened Basics
  import opened Text

  datatype File = File(path: string, content: seq<bv8>)

  const MAX_FILES := 8
  const MAX_BYTES := 8 * 1024 * 1024

  function Bytes(files: seq<File>): nat {
    if files == [] then 0 else Bytes(files[..|files| - 1]) + |files[|files| - 1].content|
  }

  /** Small enough to be sent at once; one file goes alone however large it is. */
  predicate Fits(batch: seq<File>) {
    0 < |batch| <= MAX_FILES && (|batch| > 1 ==> Bytes(batch) <= MAX_BYTES)
  }

  /** No batch could have taken the first file of the next one. */
  predicate Greedy(batches: seq<seq<File>>, next: seq<File>) {
    && (forall k :: 0 <= k < |batches| ==> Fits(batches[k]))
    && (forall k :: 0 < k < |batches| ==> Full(batches[k - 1], batches[k]))
    && (batches != [] && next != [] ==> Full(batches[|batches| - 1], next))
  }

  predicate Full(batch: seq<File>, next: seq<File>) {
    next != [] && (|batch| >= MAX_FILES || Bytes(batch) + |next[0].content| > MAX_BYTES)
  }

  /** The last batch of these files is still to be sent. */
  ghost predicate Unsent(written: seq<seq<File>>, batch: seq<File>, files: seq<File>) {
    batch != [] && Fits(batch) && Greedy(written, batch) && Concat(written) + batch == files
  }

  datatype Result = Imported | Aborted | WriteFailed

  /**
   * `abortedAt` is the first file at which the abort is noticed, if it is; `writeFails(k)` says
   * whether the k-th write fails. What has been written is always a beginning of the files, in
   * their order, and all of them when the import succeeds.
   */
  method Import(files: seq<File>, abortedAt: Option<nat>, writeFails: nat -> bool)
    returns (result: Result, written: seq<seq<File>>)
    ensures Greedy(written, [])
    ensures forall k :: 0 <= k < |written| ==>
      1 <= |written[k]| <= 8 && (|written[k]| > 1 ==> Bytes(written[k]) <= 8_388_608)
    ensures forall k :: 0 < k < |written| ==>
      |written[k - 1]| == 8 || Bytes(written[k - 1]) + |written[k][0].content| > 8_388_608
    ensures Concat(written) <= files
    ensures result.Imported? <==> Concat(written) == files
    ensures result.WriteFailed? ==> writeFails(|written|) && exists n, batch :: 0 <= n <= |files| && Unsent(written, batch, files[..n])
    ensures result.Aborted? ==> abortedAt.Some? && abortedAt.value < |files|
    // at most the last batch, which was not yet full, is left behind by an abort
    ensures result.Aborted? && files[..abortedAt.value] != [] ==> exists batch :: Unsent(written, batch, files[..abortedAt.value])
    ensures abortedAt.Some? && abortedAt.value < |files| ==> |Concat(written)| <= abortedAt.value
    ensures forall k :: 0 <= k < |written| ==> !writeFails(k)
  {
    hide Bytes, Greedy, Concat;
    var batch: seq<File> := [];
    var batchBytes := 0;
    var i := 0;
    written := [];
    NothingYet();
    while i < |files|
      invariant i <= |files|
      invariant if i == 0 then batch == [] && written == [] else batch != [] && Fits(batch)
      invariant batchBytes == Bytes(batch)
      invariant Greedy(written, batch)
      invariant Concat(written) + batch == files[..i]
      invariant abortedAt.Some? ==> i <= abortedAt.value
      invariant forall k :: 0 <= k < |written| ==> !writeFails(k)
    {
      var file := files[i];
      OnlyWritten(written, batch);
      if abortedAt == Some(i) {
        assert i > 0 ==> Unsent(written, batch, files[..i]);
        Bounds(written);
        return Aborted, written;
      }
      Push(written, batch, file);
      assert files[..i] + [file] == files[..i + 1];
      if batch != [] && (|batch| >= MAX_FILES || batchBytes + |file.content| > MAX_BYTES) {
        if writeFails(|written|) {
          assert Unsent(written, batch, files[..i]);
          Bounds(written);
          return WriteFailed, written;
        }
        Write(written, batch, [file]);
        written := written + [batch];
        batch, batchBytes := [], 0;
        Push(written, batch, file);
      }
      batch := batch + [file];
      batchBytes := batchBytes + |file.content|;
      i := i + 1;
    }
    OnlyWritten(written, batch);
    if batch != [] {
      if writeFails(|written|) {
        assert Unsent(written, batch, files[..i]);
        Bounds(written);
        return WriteFailed, written;
      }
      Write(written, batch, []);
      written := written + [batch];
    }
    Bounds(written);
    result := Imported;
  }

  lemma NothingYet()
    ensures Bytes([]) == 0 && Concat<File>([]) == [] && Greedy([], [])
  {
  }

  lemma OnlyWritten(written: seq<seq<File>>, batch: seq<File>)
    requires Greedy(written, batch)
    ensures Greedy(written, [])
  {
  }

  lemma Bounds(written: seq<seq<File>>)
    requires Greedy(written, [])
    ensures forall k :: 0 <= k < |written| ==>
      1 <= |written[k]| <= 8 && (|written[k]| > 1 ==> Bytes(written[k]) <= 8_388_608)
    ensures forall k :: 0 < k < |written| ==>
      |written[k - 1]| == 8 || Bytes(written[k - 1]) + |written[k][0].content| > 8_388_608
  {
    forall k | 0 < k < |written|
      ensures |written[k - 1]| == 8 || Bytes(written[k - 1]) + |written[k][0].content| > 8_388_608
    {
      assert Full(written[k - 1], written[k]) && Fits(written[k - 1]);
    }
  }

  lemma Push(written: seq<seq<File>>, batch: seq<File>, file: File)
    ensures Bytes(batch + [file]) == Bytes(batch) + |file.content|
    ensures Bytes([]) == 0
    ensures batch != [] && Greedy(written, batch) ==> Greedy(written, batch + [file])
    ensures batch == [] ==> batch + [file] == [file] && |file.content| == Bytes([file])
    ensures Greedy(written, []) && written == [] ==> Greedy(written, [file])
  {
    assert (batch + [file])[..|batch|] == batch;
  }

  lemma Write(written: seq<seq<File>>, batch: seq<File>, next: seq<File>)
    requires Greedy(written, batch) && batch != [] && Fits(batch)
    requires next != [] ==> Full(batch, next)
    ensures Greedy(written + [batch], next)
    ensures Concat(written + [batch]) == Concat(written) + batch
  {
    assert (written + [batch])[..|written|] == written;
  }
}
