/** The document upload box (components/FileUpload.tsx): per-file type and size checks
    over a batch, the all-or-nothing merge into the uploaded list, and removal by index. */
module Upload {
  import opened Options
  import Seqs

  /** A picked file, reduced to what the checks read. */
  datatype UploadedFile = UploadedFile(name: string, mimeType: string, size: nat)

  /** PDF, XLSX, DOCX and legacy DOC. */
  const AllowedTypes: seq<string> := [
    "application/pdf",
    "application/vnd.openxmlformats-officedocument.spreadsheetml.sheet",
    "application/vnd.openxmlformats-officedocument.wordprocessingml.document",
    "application/msword"
  ]

  /** 5 MB; a file larger than this is rejected, one of exactly this size is not. */
  const MaxBytes: nat := 5 * 1024 * 1024

  const TypeMessage: string := ": Only PDF, XLSX, and WORD files are allowed"
  const SizeMessage: string := ": File size must be less than 5MB"

  /** The error one file raises: the type is checked first, and the size only for an allowed type. */
  function FileError(f: UploadedFile): Option<string> {
    if f.mimeType !in AllowedTypes then Some(f.name + TypeMessage)
    else if f.size > MaxBytes then Some(f.name + SizeMessage)
    else None
  }

  predicate IsValid(f: UploadedFile) {
    FileError(f).None?
  }

  /** One error message per rejected file, of the kind its first failing check gives. */
  lemma FileErrorCases(f: UploadedFile)
    ensures IsValid(f) <==> f.mimeType in AllowedTypes && f.size <= 5242880
    ensures f.mimeType !in AllowedTypes ==> FileError(f) == Some(f.name + TypeMessage)
    ensures f.mimeType in AllowedTypes && f.size > 5242880 ==> FileError(f) == Some(f.name + SizeMessage)
  {
  }

  /** The files of the batch that pass, in input order (`validFiles`). */
  function ValidFiles(files: seq<UploadedFile>): seq<UploadedFile> {
    if files == [] then []
    else
      var last := files[|files| - 1];
      ValidFiles(files[..|files| - 1]) + (if IsValid(last) then [last] else [])
  }

  /** The files of the batch that fail, in input order. */
  function RejectedFiles(files: seq<UploadedFile>): seq<UploadedFile> {
    if files == [] then []
    else
      var last := files[|files| - 1];
      RejectedFiles(files[..|files| - 1]) + (if IsValid(last) then [] else [last])
  }

  /** The error messages of the batch, in input order (`errors`). */
  function Errors(files: seq<UploadedFile>): seq<string> {
    if files == [] then []
    else
      var last := files[|files| - 1];
      Errors(files[..|files| - 1]) + (match FileError(last) case Some(e) => [e] case None => [])
  }

  /** The `forEach` over the batch: sorts each file into `validFiles` or `errors`. */
  method CheckBatch(files: seq<UploadedFile>) returns (validFiles: seq<UploadedFile>, errors: seq<string>)
    ensures validFiles == ValidFiles(files)
    ensures errors == Errors(files)
  {
    validFiles, errors := [], [];
    var i := 0;
    while i < |files|
      invariant 0 <= i <= |files|
      invariant validFiles == ValidFiles(files[..i])
      invariant errors == Errors(files[..i])
    {
      var file := files[i];
      assert files[..i + 1][..i] == files[..i];
      if file.mimeType !in AllowedTypes {
        errors := errors + [file.name + TypeMessage];
      } else if file.size > MaxBytes {
        errors := errors + [file.name + SizeMessage];
      } else {
        validFiles := validFiles + [file];
      }
      i := i + 1;
    }
    assert files[..i] == files;
  }

  /** Every file of the batch lands in exactly one of the two outcomes: the valid and
      rejected files together are the batch. */
  lemma {:induction false} BatchPartition(files: seq<UploadedFile>)
    ensures multiset(ValidFiles(files)) + multiset(RejectedFiles(files)) == multiset(files)
    ensures |ValidFiles(files)| + |RejectedFiles(files)| == |files|
    decreases |files|
  {
    if files != [] {
      var last := files[|files| - 1];
      var init := files[..|files| - 1];
      BatchPartition(init);
      assert files == init + [last];
      assert multiset(files) == multiset(init) + multiset{last};
      var v, r := ValidFiles(init), RejectedFiles(init);
      if IsValid(last) {
        assert ValidFiles(files) == v + [last] && RejectedFiles(files) == r;
        assert multiset(v + [last]) == multiset(v) + multiset{last};
      } else {
        assert ValidFiles(files) == v && RejectedFiles(files) == r + [last];
        assert multiset(r + [last]) == multiset(r) + multiset{last};
      }
    }
  }

  /** The valid part holds only files that pass and the rejected part only files that fail. */
  lemma {:induction false} BatchPartsSorted(files: seq<UploadedFile>)
    ensures forall k :: 0 <= k < |ValidFiles(files)| ==> IsValid(ValidFiles(files)[k])
    ensures forall k :: 0 <= k < |RejectedFiles(files)| ==> !IsValid(RejectedFiles(files)[k])
    decreases |files|
  {
    if files != [] {
      BatchPartsSorted(files[..|files| - 1]);
    }
  }

  /** Each rejected file contributes its own message, at its own position among the rejections. */
  lemma {:induction false} ErrorsMatchRejected(files: seq<UploadedFile>)
    ensures |Errors(files)| == |RejectedFiles(files)|
    ensures forall k :: 0 <= k < |Errors(files)| ==> FileError(RejectedFiles(files)[k]) == Some(Errors(files)[k])
    decreases |files|
  {
    if files != [] {
      var last := files[|files| - 1];
      var init := files[..|files| - 1];
      ErrorsMatchRejected(init);
      var errs, rej := Errors(init), RejectedFiles(init);
      if IsValid(last) {
        assert Errors(files) == errs && RejectedFiles(files) == rej;
      } else {
        assert Errors(files) == errs + [FileError(last).value];
        assert RejectedFiles(files) == rej + [last];
      }
    }
  }

  /** The valid files keep input order: they are the batch with the rejected files left out. */
  lemma {:induction false} ValidFilesInOrder(files: seq<UploadedFile>)
    ensures Seqs.IsSubsequence(ValidFiles(files), files)
    decreases |files|
  {
    if files != [] {
      var last := files[|files| - 1];
      var init := files[..|files| - 1];
      ValidFilesInOrder(init);
      assert files == init + [last];
      Seqs.SubsequenceExtend(ValidFiles(init), init, last, IsValid(last));
    }
  }

  /** The rejected files, and so their messages, keep the order of the batch. */
  lemma {:induction false} RejectedFilesInOrder(files: seq<UploadedFile>)
    ensures Seqs.IsSubsequence(RejectedFiles(files), files)
    decreases |files|
  {
    if files != [] {
      var last := files[|files| - 1];
      var init := files[..|files| - 1];
      RejectedFilesInOrder(init);
      assert files == init + [last];
      Seqs.SubsequenceExtend(RejectedFiles(init), init, last, !IsValid(last));
    }
  }

  /** A batch without a single error passes whole. */
  lemma {:induction false} NoErrorsKeepsAll(files: seq<UploadedFile>)
    requires Errors(files) == []
    ensures ValidFiles(files) == files
    decreases |files|
  {
    if files != [] {
      var init := files[..|files| - 1];
      assert Errors(init) == [] by { ErrorsGrow(init, files[|files| - 1]); }
      NoErrorsKeepsAll(init);
      assert files == init + [files[|files| - 1]];
    }
  }

  /** Appending a file never removes an earlier error. */
  lemma ErrorsGrow(init: seq<UploadedFile>, last: UploadedFile)
    ensures |Errors(init)| <= |Errors(init + [last])|
  {
    assert (init + [last])[..|init + [last]| - 1] == init;
  }

  /** `errors.join(", ")`. */
  function Join(parts: seq<string>, separator: string): string {
    if parts == [] then ""
    else if |parts| == 1 then parts[0]
    else parts[0] + separator + Join(parts[1..], separator)
  }

  /** The joined error text is empty exactly when there are no errors, since every message names
      its file and its reason. */
  lemma JoinedErrorsEmptyIff(files: seq<UploadedFile>)
    ensures Join(Errors(files), ", ") == "" <==> Errors(files) == []
  {
    var errs := Errors(files);
    if errs != [] {
      ErrorsMatchRejected(files);
      var f := RejectedFiles(files)[0];
      assert Some(errs[0]) == FileError(f);
      assert |errs[0]| > 0;
      assert Join(errs, ", ")[..|errs[0]|] == errs[0];
    }
  }

  /** What the batch does to the two pieces of state: the uploaded list and `uploadError`. */
  datatype UploadState = UploadState(uploadedFiles: seq<UploadedFile>, uploadError: string)

  /** The outcome of `handleFileUpload` on a non-null batch. */
  function UploadBatch(s: UploadState, batch: seq<UploadedFile>): (r: UploadState)
    ensures Errors(batch) != [] ==> r.uploadedFiles == s.uploadedFiles && r.uploadError == Join(Errors(batch), ", ")
    ensures Errors(batch) == [] ==> r.uploadedFiles == s.uploadedFiles + batch && r.uploadError == ""
  {
    var errors := Errors(batch);
    if |errors| > 0 then s.(uploadError := Join(errors, ", "))
    else
      NoErrorsKeepsAll(batch);
      UploadState(s.uploadedFiles + ValidFiles(batch), "")
  }

  /** The batch is all or nothing: the list grows by the whole batch and the error clears,
      or the list stays as it was and the error text is non-empty. */
  lemma AllOrNothing(s: UploadState, batch: seq<UploadedFile>)
    ensures UploadBatch(s, batch).uploadError == "" <==> (forall k :: 0 <= k < |batch| ==> IsValid(batch[k]))
    ensures UploadBatch(s, batch).uploadError == "" ==> UploadBatch(s, batch).uploadedFiles == s.uploadedFiles + batch
    ensures UploadBatch(s, batch).uploadError != "" ==> UploadBatch(s, batch).uploadedFiles == s.uploadedFiles
  {
    JoinedErrorsEmptyIff(batch);
    BatchPartition(batch);
    BatchPartsSorted(batch);
    ErrorsMatchRejected(batch);
    if Errors(batch) == [] {
      NoErrorsKeepsAll(batch);
    } else {
      var f := RejectedFiles(batch)[0];
      assert f in multiset(batch);
      var k :| 0 <= k < |batch| && batch[k] == f;
    }
  }

  /** `uploadedFiles.filter((_, i) => i !== index)`: drops the entry at `index`, if there is one. */
  function RemoveAt(files: seq<UploadedFile>, index: int): (r: seq<UploadedFile>)
    ensures 0 <= index < |files| ==> r == files[..index] + files[index + 1..] && |r| == |files| - 1
    ensures !(0 <= index < |files|) ==> r == files
  {
    if files == [] then []
    else
      var rest := RemoveAt(files[1..], index - 1);
      if index == 0 then
        assert files[..0] + files[1..] == files[1..];
        rest
      else
        assert 0 < index < |files| ==>
          files[..index] == [files[0]] + files[1..][..index - 1] && files[index + 1..] == files[1..][index..];
        assert files == [files[0]] + files[1..];
        [files[0]] + rest
  }

  /** Removing the middle of three entries keeps the outer two; an index past the end removes nothing. */
  lemma RemoveAtExamples(a: UploadedFile, b: UploadedFile, c: UploadedFile)
    ensures RemoveAt([a, b, c], 1) == [a, c]
    ensures RemoveAt([a], 5) == [a] && RemoveAt([a], -1) == [a]
  {
  }

  /** A 1 MB PDF joins an empty list and clears the error. */
  lemma UploadOneValidPdf(f: UploadedFile)
    requires f == UploadedFile("a.pdf", "application/pdf", 1048576)
    ensures UploadBatch(UploadState([], "x"), [f]) == UploadState([f], "")
  {
    assert [f][..0] == [];
    assert Errors([f]) == [];
  }

  /** A 1 MB PDF next to a 6 MB PDF is dropped with the whole batch; only the oversize error shows. */
  lemma UploadMixedBatch(s: UploadState, ok: UploadedFile, big: UploadedFile)
    requires ok == UploadedFile("a.pdf", "application/pdf", 1048576)
    requires big == UploadedFile("b.pdf", "application/pdf", 6291456)
    ensures UploadBatch(s, [ok, big]) == s.(uploadError := "b.pdf" + SizeMessage)
  {
    assert [ok, big][..1] == [ok];
    assert [ok][..0] == [];
    assert Errors([ok]) == [];
    assert FileError(big) == Some("b.pdf" + SizeMessage);
    assert Errors([ok, big]) == ["b.pdf" + SizeMessage];
    assert Join(["b.pdf" + SizeMessage], ", ") == "b.pdf" + SizeMessage;
  }

  /** A text file is refused by type and the list stays as it was. */
  lemma UploadTextFile(s: UploadState, f: UploadedFile)
    requires f == UploadedFile("n.txt", "text/plain", 10)
    ensures UploadBatch(s, [f]) == s.(uploadError := "n.txt" + TypeMessage)
  {
    assert [f][..0] == [];
    assert f.mimeType !in AllowedTypes;
    assert Errors([f]) == ["n.txt" + TypeMessage];
    assert Join(["n.txt" + TypeMessage], ", ") == "n.txt" + TypeMessage;
  }

  /** The size limit is not strict: a PDF of exactly 5 MB passes, one byte more does not. */
  lemma SizeLimitBoundary(name: string)
    ensures IsValid(UploadedFile(name, "application/pdf", 5242880))
    ensures !IsValid(UploadedFile(name, "application/pdf", 5242881))
  {
  }

  /** The upload box's state: the list it shows (owned by its parent, replaced through
      `onFilesChange`) and its own `uploadError`. */
  class FileUpload {
    var uploadedFiles: seq<UploadedFile>
    var uploadError: string

    function State(): UploadState
      reads this
    {
      UploadState(uploadedFiles, uploadError)
    }

    constructor (initial: seq<UploadedFile>)
      ensures State() == UploadState(initial, "")
    {
      uploadedFiles := initial;
      uploadError := "";
    }

    /** `handleFileUpload`: a missing file list is ignored; otherwise check, then merge or report. */
    method HandleFileUpload(files: Option<seq<UploadedFile>>)
      modifies this
      ensures files.None? ==> State() == old(State())
      ensures files.Some? ==> State() == UploadBatch(old(State()), files.value)
    {
      if files.None? {
        return;
      }
      var validFiles, errors := CheckBatch(files.value);
      if |errors| > 0 {
        uploadError := Join(errors, ", ");
      } else {
        uploadError := "";
        uploadedFiles := uploadedFiles + validFiles;
      }
    }

    /** `removeFile`. */
    method RemoveFile(index: int)
      modifies this
      ensures uploadedFiles == RemoveAt(old(uploadedFiles), index)
      ensures uploadError == old(uploadError)
    {
      uploadedFiles := RemoveAt(uploadedFiles, index);
    }
  }
}
