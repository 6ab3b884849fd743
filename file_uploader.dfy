/**
 * The upload queue of src/components/FileUploader.tsx: validating and queueing
 * the files handed to `handleFiles`, the uploader's own automatic tags, the
 * list updaters (`removeFile`, `updateFileTags`, `clearCompleted`) and the
 * status transitions `uploadFiles` makes. The upload call itself is a
 * parameter: for each queued entry, the document it returned or the error it
 * threw.
 */
module FileUploader {
  import opened Wrappers
  import opened Text
  import opened FileUtils
  import opened DocumentService

  datatype UploadStatus = Pending | Uploading | Completed | Error

  /** `UploadFile`: one entry of the queue. Progress is a whole percentage. */
  datatype UploadFile = UploadFile(
    id: string,
    file: FileInfo,
    status: UploadStatus,
    progress: int,
    error: Option<string>,
    tags: seq<string>)

  /** The allow-list used when the caller gives none. */
  const DefaultAllowedTypes: seq<string> := ["pdf", "word", "excel", "image", "text"]
  /** The size limit in megabytes used when the caller gives none. */
  const DefaultMaxFileSize: nat := 50

  // ---------------------------------------------------------------------------
  // Automatic tags

  /**
   * The uploader's tags: the same MIME and keyword rules as the document
   * service, without its last rule (`signed`).
   */
  function UploaderTagsOf(f: FileInfo): seq<string>
  {
    RuleTags(f, AutoTagRules, 11)
  }

  /** `generateAutoTags` of the uploader: push the tags of each of the eleven rules that match. */
  method UploaderAutoTags(f: FileInfo) returns (tags: seq<string>)
    ensures tags == UploaderTagsOf(f)
  {
    tags := [];
    var fileName := ToLower(f.name);
    var fileType := f.mimeType;
    tags := PushWhen(tags, fileType, "pdf", ["pdf"]);
    tags := PushWhen(tags, fileType, "word", ["word", "document"]);
    tags := PushWhen(tags, fileType, "excel", ["excel", "spreadsheet"]);
    tags := PushWhen(tags, fileType, "image", ["image"]);
    tags := PushWhen(tags, fileName, "contract", ["contract", "legal"]);
    tags := PushWhen(tags, fileName, "nda", ["nda", "confidential"]);
    tags := PushWhen(tags, fileName, "agreement", ["agreement", "legal"]);
    tags := PushWhen(tags, fileName, "invoice", ["invoice", "financial"]);
    tags := PushWhen(tags, fileName, "template", ["template"]);
    tags := PushWhen(tags, fileName, "draft", ["draft"]);
    tags := PushWhen(tags, fileName, "final", ["final"]);
    FirstElevenUnrolled(f);
  }

  /** The uploader's tags are the service's tags, less a trailing `signed`. */
  lemma UploaderTagsAreServiceTagsWithoutSigned(f: FileInfo)
    ensures AutoTagsOf(f) ==
      UploaderTagsOf(f) + (if Contains(ToLower(f.name), "signed") then ["signed"] else [])
    ensures !Contains(ToLower(f.name), "signed") ==> AutoTagsOf(f) == UploaderTagsOf(f)
  {
    AutoTagsUnrolled(f);
  }

  /** Merging the uploader's tags into the service's own adds at most `signed`. */
  lemma UploadedTagsAddOnlySigned(f: FileInfo, x: string)
    requires x in MergeTags(UploaderTagsOf(f), AutoTagsOf(f))
    ensures x in UploaderTagsOf(f) || x == "signed"
  {
    UploaderTagsAreServiceTagsWithoutSigned(f);
    MergeTagsSpec(UploaderTagsOf(f), AutoTagsOf(f));
  }

  // ---------------------------------------------------------------------------
  // Validation and queueing

  /** What the two checks of `handleFiles` make of one file. */
  datatype Verdict = Accepted | BadType | TooLarge

  /** The type is checked first; only a file of an allowed type has its size checked. */
  function CheckFile(f: FileInfo, allowed: seq<string>, maxMB: nat): (v: Verdict)
    ensures v == BadType <==> !ValidateFileType(f.mimeType, allowed)
    ensures v == TooLarge <==> ValidateFileType(f.mimeType, allowed) && !ValidateFileSize(f.size, maxMB)
    ensures v == Accepted <==> ValidateFileType(f.mimeType, allowed) && ValidateFileSize(f.size, maxMB)
  {
    if !ValidateFileType(f.mimeType, allowed) then BadType
    else if !ValidateFileSize(f.size, maxMB) then TooLarge
    else Accepted
  }

  /** The message a rejected file contributes. */
  function RejectionMessage(f: FileInfo, v: Verdict, maxMB: nat): string
  {
    if v == BadType then f.name + ": File type not allowed"
    else f.name + ": File size exceeds " + NatToString(maxMB) + "MB limit"
  }

  /** A freshly queued entry: pending, no progress, the uploader's tags. */
  function NewEntry(id: string, f: FileInfo): UploadFile
  {
    UploadFile(id, f, Pending, 0, None, UploaderTagsOf(f))
  }

  /** The entries the first `k` files produce, in input order. */
  function ValidUpTo(fileList: seq<FileInfo>, ids: seq<string>, allowed: seq<string>, maxMB: nat, k: nat)
    : seq<UploadFile>
    requires k <= |fileList| == |ids|
  {
    if k == 0 then []
    else
      ValidUpTo(fileList, ids, allowed, maxMB, k - 1) +
      (if CheckFile(fileList[k - 1], allowed, maxMB) == Accepted then [NewEntry(ids[k - 1], fileList[k - 1])] else [])
  }

  /** The messages the first `k` files produce, in input order. */
  function ErrorsUpTo(fileList: seq<FileInfo>, allowed: seq<string>, maxMB: nat, k: nat): seq<string>
    requires k <= |fileList|
  {
    if k == 0 then []
    else
      var v := CheckFile(fileList[k - 1], allowed, maxMB);
      ErrorsUpTo(fileList, allowed, maxMB, k - 1) +
      (if v == Accepted then [] else [RejectionMessage(fileList[k - 1], v, maxMB)])
  }

  /** `validFiles.splice(1)` when only one file may be queued. */
  function Kept(valid: seq<UploadFile>, multiple: bool): seq<UploadFile>
  {
    if !multiple && |valid| > 1 then valid[..1] else valid
  }

  /** The argument of `onUploadError`, when it is called. */
  function ErrorReport(errors: seq<string>): Option<string>
  {
    if |errors| > 0 then Some(Join(errors, "\n")) else None
  }

  /**
   * `handleFiles`: each file is queued or reported, the report goes out when
   * anything was rejected, and the new entries follow the existing ones. The
   * fresh ids (`Date.now()` plus a random suffix) are supplied by the caller,
   * one per file.
   */
  method HandleFiles(prev: seq<UploadFile>, fileList: seq<FileInfo>, ids: seq<string>,
                     allowed: seq<string>, maxMB: nat, multiple: bool)
    returns (files: seq<UploadFile>, errorReport: Option<string>)
    requires |ids| == |fileList|
    ensures files == prev + Kept(ValidUpTo(fileList, ids, allowed, maxMB, |fileList|), multiple)
    ensures errorReport == ErrorReport(ErrorsUpTo(fileList, allowed, maxMB, |fileList|))
  {
    var validFiles: seq<UploadFile> := [];
    var errors: seq<string> := [];
    var i := 0;
    while i < |fileList|
      invariant 0 <= i <= |fileList|
      invariant validFiles == ValidUpTo(fileList, ids, allowed, maxMB, i)
      invariant errors == ErrorsUpTo(fileList, allowed, maxMB, i)
    {
      var file := fileList[i];
      if !ValidateFileType(file.mimeType, allowed) {
        errors := errors + [file.name + ": File type not allowed"];
      } else if !ValidateFileSize(file.size, maxMB) {
        errors := errors + [file.name + ": File size exceeds " + NatToString(maxMB) + "MB limit"];
      } else {
        var autoTags := UploaderAutoTags(file);
        validFiles := validFiles + [UploadFile(ids[i], file, Pending, 0, None, autoTags)];
      }
      i := i + 1;
    }
    errorReport := None;
    if |errors| > 0 {
      errorReport := Some(Join(errors, "\n"));
    }
    if !multiple && |validFiles| > 1 {
      validFiles := validFiles[..1];
    }
    files := prev + validFiles;
  }

  /** Every file is either queued or reported, never both and never neither. */
  lemma {:induction false} EachFileQueuedOrReported(fileList: seq<FileInfo>, ids: seq<string>,
                                                     allowed: seq<string>, maxMB: nat, k: nat)
    requires k <= |fileList| == |ids|
    ensures |ValidUpTo(fileList, ids, allowed, maxMB, k)| + |ErrorsUpTo(fileList, allowed, maxMB, k)| == k
    decreases k
  {
    if k > 0 {
      EachFileQueuedOrReported(fileList, ids, allowed, maxMB, k - 1);
    }
  }

  /** The queued entries are exactly the accepted files, each pending with progress 0 and its tags. */
  lemma {:induction false} QueuedEntries(fileList: seq<FileInfo>, ids: seq<string>,
                                         allowed: seq<string>, maxMB: nat, k: nat, x: UploadFile)
    requires k <= |fileList| == |ids|
    ensures x in ValidUpTo(fileList, ids, allowed, maxMB, k) <==>
      exists i :: 0 <= i < k && CheckFile(fileList[i], allowed, maxMB) == Accepted &&
                  x == UploadFile(ids[i], fileList[i], Pending, 0, None, UploaderTagsOf(fileList[i]))
    decreases k
  {
    if k > 0 {
      QueuedEntries(fileList, ids, allowed, maxMB, k - 1, x);
    }
  }

  /** The messages are exactly those of the rejected files. */
  lemma {:induction false} ReportedMessages(fileList: seq<FileInfo>, allowed: seq<string>, maxMB: nat, k: nat, m: string)
    requires k <= |fileList|
    ensures m in ErrorsUpTo(fileList, allowed, maxMB, k) <==>
      exists i :: 0 <= i < k && CheckFile(fileList[i], allowed, maxMB) != Accepted &&
                  m == RejectionMessage(fileList[i], CheckFile(fileList[i], allowed, maxMB), maxMB)
    decreases k
  {
    if k > 0 {
      ReportedMessages(fileList, allowed, maxMB, k - 1, m);
    }
  }

  /** The error callback fires exactly when some file was rejected. */
  lemma {:induction false} ErrorReportIffRejected(fileList: seq<FileInfo>, allowed: seq<string>, maxMB: nat, k: nat)
    requires k <= |fileList|
    ensures ErrorReport(ErrorsUpTo(fileList, allowed, maxMB, k)).Some? <==>
      exists i :: 0 <= i < k && CheckFile(fileList[i], allowed, maxMB) != Accepted
    decreases k
  {
    if k > 0 {
      ErrorReportIffRejected(fileList, allowed, maxMB, k - 1);
    }
  }

  /** A file of a disallowed type is reported for its type, whatever its size. */
  lemma TypeReportedBeforeSize(f: FileInfo, id: string, allowed: seq<string>, maxMB: nat)
    requires !ValidateFileType(f.mimeType, allowed)
    ensures ErrorsUpTo([f], allowed, maxMB, 1) == [f.name + ": File type not allowed"]
    ensures ValidUpTo([f], [id], allowed, maxMB, 1) == []
  {
  }

  /** With `multiple` off, the queue grows by at most one entry, the first accepted file. */
  lemma SingleModeKeepsFirst(prev: seq<UploadFile>, fileList: seq<FileInfo>, ids: seq<string>,
                             allowed: seq<string>, maxMB: nat, i: nat)
    requires |ids| == |fileList|
    requires i < |fileList| && CheckFile(fileList[i], allowed, maxMB) == Accepted
    requires forall j :: 0 <= j < i ==> CheckFile(fileList[j], allowed, maxMB) != Accepted
    ensures prev + Kept(ValidUpTo(fileList, ids, allowed, maxMB, |fileList|), false) ==
      prev + [NewEntry(ids[i], fileList[i])]
  {
    var e := NewEntry(ids[i], fileList[i]);
    EmptyBeforeFirstAccepted(fileList, ids, allowed, maxMB, i);
    var w := ValidUpTo(fileList, ids, allowed, maxMB, i + 1);
    assert w == ValidUpTo(fileList, ids, allowed, maxMB, i) + [e];
    assert w == [e];
    ValidUpToPrefix(fileList, ids, allowed, maxMB, i + 1, |fileList|);
    KeptFirst(ValidUpTo(fileList, ids, allowed, maxMB, |fileList|), e);
  }

  lemma KeptFirst(v: seq<UploadFile>, e: UploadFile)
    requires |v| >= 1 && v[..1] == [e]
    ensures Kept(v, false) == [e]
  {
    if |v| == 1 {
      assert v == v[..1];
    }
  }

  lemma {:induction false} EmptyBeforeFirstAccepted(fileList: seq<FileInfo>, ids: seq<string>,
                                                    allowed: seq<string>, maxMB: nat, k: nat)
    requires k <= |fileList| == |ids|
    requires forall j :: 0 <= j < k ==> CheckFile(fileList[j], allowed, maxMB) != Accepted
    ensures ValidUpTo(fileList, ids, allowed, maxMB, k) == []
    decreases k
  {
    if k > 0 {
      EmptyBeforeFirstAccepted(fileList, ids, allowed, maxMB, k - 1);
    }
  }

  /** The entries of fewer files are a prefix of the entries of more. */
  lemma {:induction false} ValidUpToPrefix(fileList: seq<FileInfo>, ids: seq<string>,
                                           allowed: seq<string>, maxMB: nat, k: nat, k': nat)
    requires k <= k' <= |fileList| == |ids|
    ensures |ValidUpTo(fileList, ids, allowed, maxMB, k)| <= |ValidUpTo(fileList, ids, allowed, maxMB, k')|
    ensures ValidUpTo(fileList, ids, allowed, maxMB, k')[..|ValidUpTo(fileList, ids, allowed, maxMB, k)|] ==
      ValidUpTo(fileList, ids, allowed, maxMB, k)
    decreases k'
  {
    if k < k' {
      ValidUpToPrefix(fileList, ids, allowed, maxMB, k, k' - 1);
    }
  }

  // ---------------------------------------------------------------------------
  // List updaters

  /** `removeFile`: `prev.filter(f => f.id !== id)`. */
  function RemoveFile(files: seq<UploadFile>, id: string): (r: seq<UploadFile>)
    ensures |r| <= |files|
    decreases |files|
  {
    if |files| == 0 then []
    else (if files[0].id != id then [files[0]] else []) + RemoveFile(files[1..], id)
  }

  /** `updateFileTags`: the entry with that id gets the new tags; everything else is kept. */
  function UpdateFileTags(files: seq<UploadFile>, id: string, tags: seq<string>): (r: seq<UploadFile>)
    ensures |r| == |files|
    ensures forall i :: 0 <= i < |files| && files[i].id != id ==> r[i] == files[i]
    ensures forall i :: 0 <= i < |files| && files[i].id == id ==> r[i] == files[i].(tags := tags)
  {
    seq(|files|, i requires 0 <= i < |files| => if files[i].id == id then files[i].(tags := tags) else files[i])
  }

  /** `clearCompleted`: `prev.filter(f => f.status !== 'completed')`. */
  function ClearCompleted(files: seq<UploadFile>): (r: seq<UploadFile>)
    ensures |r| <= |files|
    decreases |files|
  {
    if |files| == 0 then []
    else (if files[0].status != Completed then [files[0]] else []) + ClearCompleted(files[1..])
  }

  /** Removing keeps exactly the entries with another id. */
  lemma {:induction false} RemoveFileMembership(files: seq<UploadFile>, id: string, x: UploadFile)
    ensures x in RemoveFile(files, id) <==> x in files && x.id != id
    decreases |files|
  {
    if |files| > 0 {
      RemoveFileMembership(files[1..], id, x);
      assert files == [files[0]] + files[1..];
    }
  }

  /** Removing distributes over concatenation, so the kept entries stay in order. */
  lemma {:induction false} RemoveFileAppend(a: seq<UploadFile>, b: seq<UploadFile>, id: string)
    ensures RemoveFile(a + b, id) == RemoveFile(a, id) + RemoveFile(b, id)
    decreases |a|
  {
    if |a| == 0 {
      assert a + b == b;
    } else {
      assert (a + b)[1..] == a[1..] + b;
      RemoveFileAppend(a[1..], b, id);
    }
  }

  /** Clearing keeps exactly the entries that are not completed. */
  lemma {:induction false} ClearCompletedMembership(files: seq<UploadFile>, x: UploadFile)
    ensures x in ClearCompleted(files) <==> x in files && x.status != Completed
    decreases |files|
  {
    if |files| > 0 {
      ClearCompletedMembership(files[1..], x);
      assert files == [files[0]] + files[1..];
    }
  }

  /** Clearing twice is clearing once. */
  lemma {:induction false} ClearCompletedIdempotent(files: seq<UploadFile>)
    ensures ClearCompleted(ClearCompleted(files)) == ClearCompleted(files)
    decreases |files|
  {
    if |files| > 0 {
      ClearCompletedIdempotent(files[1..]);
      var c := ClearCompleted(files);
      if files[0].status != Completed {
        assert c == [files[0]] + ClearCompleted(files[1..]);
        assert c[0] == files[0] && c[1..] == ClearCompleted(files[1..]);
      } else {
        assert c == ClearCompleted(files[1..]);
      }
    }
  }

  /** Retagging keeps every id and status, so it changes neither what is removed nor what is cleared. */
  lemma {:induction false} UpdateTagsKeepsRemoval(files: seq<UploadFile>, id: string, tags: seq<string>)
    ensures RemoveFile(UpdateFileTags(files, id, tags), id) == RemoveFile(files, id)
    decreases |files|
  {
    if |files| > 0 {
      var u := UpdateFileTags(files, id, tags);
      assert u[1..] == UpdateFileTags(files[1..], id, tags);
      assert u[0].id == files[0].id;
      if files[0].id != id {
        assert u[0] == files[0];
      }
      UpdateTagsKeepsRemoval(files[1..], id, tags);
    }
  }

  /** The last retagging wins. */
  lemma UpdateTagsTwice(files: seq<UploadFile>, id: string, t1: seq<string>, t2: seq<string>)
    ensures UpdateFileTags(UpdateFileTags(files, id, t1), id, t2) == UpdateFileTags(files, id, t2)
  {
  }

  // ---------------------------------------------------------------------------
  // Uploading

  /** What the upload call did for one entry: returned a document, or threw (with a message when it was an `Error`). */
  datatype UploadOutcome = Uploaded(documentId: string) | Threw(message: Option<string>)

  /** The status updates `uploadFiles` applies by id. */
  datatype Mark = ToUploading | ToCompleted | ToError(message: string)

  function ApplyMark(f: UploadFile, m: Mark): UploadFile
  {
    match m
    case ToUploading => f.(status := Uploading, progress := 0)
    case ToCompleted => f.(status := Completed, progress := 100)
    case ToError(msg) => f.(status := Error, error := Some(msg))
  }

  /** `prev.map(f => f.id === id ? {...} : f)`. */
  function MarkById(files: seq<UploadFile>, id: string, m: Mark): (r: seq<UploadFile>)
    ensures |r| == |files|
    ensures forall i :: 0 <= i < |files| && files[i].id != id ==> r[i] == files[i]
    ensures forall i :: 0 <= i < |files| && files[i].id == id ==> r[i] == ApplyMark(files[i], m)
  {
    seq(|files|, i requires 0 <= i < |files| => if files[i].id == id then ApplyMark(files[i], m) else files[i])
  }

  predicate DistinctIds(files: seq<UploadFile>) {
    forall i, j :: 0 <= i < j < |files| ==> files[i].id != files[j].id
  }

  /**
   * The end state of one entry: an entry that was not pending is skipped; a
   * pending one goes through `uploading` to `completed` at 100, or to `error`
   * with the thrown message or `Upload failed`.
   */
  function Processed(f: UploadFile, o: UploadOutcome): UploadFile
  {
    if f.status != Pending then f
    else
      var started := ApplyMark(f, ToUploading);
      match o
      case Uploaded(_) => ApplyMark(started, ToCompleted)
      case Threw(msg) => ApplyMark(started, ToError(msg.GetOr("Upload failed")))
  }

  /** The documents returned for the first `k` entries, in queue order. */
  function UploadedUpTo(files: seq<UploadFile>, outcomes: seq<UploadOutcome>, k: nat): seq<string>
    requires k <= |files| == |outcomes|
  {
    if k == 0 then []
    else
      UploadedUpTo(files, outcomes, k - 1) +
      (if files[k - 1].status == Pending && outcomes[k - 1].Uploaded? then [outcomes[k - 1].documentId] else [])
  }

  /**
   * The body of `uploadFiles` for one pending entry: mark it uploading, call
   * the upload, then mark it completed or failed.
   */
  method UploadEntry(files: seq<UploadFile>, uploadFile: UploadFile, outcome: UploadOutcome)
    returns (after: seq<UploadFile>, document: Option<string>)
    requires uploadFile.status == Pending
    requires forall j :: 0 <= j < |files| && files[j].id == uploadFile.id ==> files[j] == uploadFile
    ensures |after| == |files|
    ensures forall j :: 0 <= j < |files| && files[j].id != uploadFile.id ==> after[j] == files[j]
    ensures forall j :: 0 <= j < |files| && files[j].id == uploadFile.id ==> after[j] == Processed(uploadFile, outcome)
    ensures document == (if outcome.Uploaded? then Some(outcome.documentId) else None)
  {
    after := MarkById(files, uploadFile.id, ToUploading);
    match outcome
    case Uploaded(doc) =>
      document := Some(doc);
      after := MarkById(after, uploadFile.id, ToCompleted);
    case Threw(message) =>
      document := None;
      var text := if message.Some? then message.value else "Upload failed";
      after := MarkById(after, uploadFile.id, ToError(text));
  }

  /**
   * `uploadFiles` over the queue as it stood when the upload began: every
   * pending entry is uploaded in turn and marked by id; `onUploadComplete`
   * receives the returned documents when there is at least one.
   */
  method UploadFiles(files: seq<UploadFile>, outcomes: seq<UploadOutcome>)
    returns (after: seq<UploadFile>, completion: Option<seq<string>>)
    requires |outcomes| == |files| && DistinctIds(files)
    ensures |after| == |files|
    ensures forall i :: 0 <= i < |files| ==> after[i] == Processed(files[i], outcomes[i])
    ensures completion == (if |UploadedUpTo(files, outcomes, |files|)| > 0
                           then Some(UploadedUpTo(files, outcomes, |files|)) else None)
  {
    after := files;
    completion := None;
    if |files| == 0 {
      return;
    }
    var uploadedDocuments: seq<string> := [];
    var i := 0;
    while i < |files|
      invariant 0 <= i <= |files| && |after| == |files|
      invariant forall j :: 0 <= j < |files| ==> after[j].id == files[j].id
      invariant forall j :: 0 <= j < i ==> after[j] == Processed(files[j], outcomes[j])
      invariant forall j :: i <= j < |files| ==> after[j] == files[j]
      invariant uploadedDocuments == UploadedUpTo(files, outcomes, i)
    {
      var uploadFile := files[i];
      if uploadFile.status == Pending {
        var document;
        after, document := UploadEntry(after, uploadFile, outcomes[i]);
        if document.Some? {
          uploadedDocuments := uploadedDocuments + [document.value];
        }
      }
      i := i + 1;
    }
    if |uploadedDocuments| > 0 {
      completion := Some(uploadedDocuments);
    }
  }

  /** Only pending entries change; each ends completed at 100 or in error, keeping its id, file and tags. */
  lemma ProcessedOutcome(f: UploadFile, o: UploadOutcome)
    ensures var g := Processed(f, o);
      g.id == f.id && g.file == f.file && g.tags == f.tags &&
      (f.status != Pending ==> g == f) &&
      (f.status == Pending && o.Uploaded? ==> g.status == Completed && g.progress == 100) &&
      (f.status == Pending && o.Threw? ==> g.status == Error && g.error.Some? &&
                                           g.error.value == (if o.message.Some? then o.message.value else "Upload failed"))
  {
  }

  /** After an upload nothing is pending, so a second upload changes nothing and reports nothing. */
  lemma UploadAgainChangesNothing(files: seq<UploadFile>, outcomes: seq<UploadOutcome>, outcomes': seq<UploadOutcome>)
    requires |outcomes| == |files| == |outcomes'|
    ensures var after := seq(|files|, i requires 0 <= i < |files| => Processed(files[i], outcomes[i]));
      (forall i :: 0 <= i < |files| ==> after[i].status != Pending && Processed(after[i], outcomes'[i]) == after[i]) &&
      UploadedUpTo(after, outcomes', |files|) == []
  {
    var after := seq(|files|, i requires 0 <= i < |files| => Processed(files[i], outcomes[i]));
    NothingPendingUploadsNothing(after, outcomes', |files|);
  }

  lemma {:induction false} NothingPendingUploadsNothing(files: seq<UploadFile>, outcomes: seq<UploadOutcome>, k: nat)
    requires k <= |files| == |outcomes|
    requires forall i :: 0 <= i < |files| ==> files[i].status != Pending
    ensures UploadedUpTo(files, outcomes, k) == []
    decreases k
  {
    if k > 0 {
      NothingPendingUploadsNothing(files, outcomes, k - 1);
    }
  }

  /** `onUploadComplete` fires exactly when some pending entry's upload returned a document. */
  lemma {:induction false} CompletionIffSomeUploaded(files: seq<UploadFile>, outcomes: seq<UploadOutcome>, k: nat)
    requires k <= |files| == |outcomes|
    ensures |UploadedUpTo(files, outcomes, k)| > 0 <==>
      exists i :: 0 <= i < k && files[i].status == Pending && outcomes[i].Uploaded?
    ensures |UploadedUpTo(files, outcomes, k)| <= k
    decreases k
  {
    if k > 0 {
      CompletionIffSomeUploaded(files, outcomes, k - 1);
    }
  }
}
