/**
 * The decision and record-building logic of src/services/documentService.ts:
 * automatic tags, the tag merge, the document type, the record inserted on
 * upload, the two notification conditions and the row-to-metadata mapping.
 * Storage, database and webhook calls are opaque.
 */
module DocumentService {
  import opened Wrappers
  import opened Text

  /** The parts of a browser `File` the service reads. */
  datatype FileInfo = FileInfo(name: string, mimeType: string, size: int)

  /** Which text a rule looks at: the MIME type, or the lower-cased file name. */
  datatype RuleSubject = Mime | Name

  /** A rule: when `fragment` occurs in its subject, append `tags`. */
  datatype TagRule = TagRule(subject: RuleSubject, fragment: string, tags: seq<string>)

  /** The rules, in the order `generateAutoTags` tests them: MIME type first, then name keywords. */
  const AutoTagRules: seq<TagRule> := [
    TagRule(Mime, "pdf", ["pdf"]),
    TagRule(Mime, "word", ["word", "document"]),
    TagRule(Mime, "excel", ["excel", "spreadsheet"]),
    TagRule(Mime, "image", ["image"]),
    TagRule(Name, "contract", ["contract", "legal"]),
    TagRule(Name, "nda", ["nda", "confidential"]),
    TagRule(Name, "agreement", ["agreement", "legal"]),
    TagRule(Name, "invoice", ["invoice", "financial"]),
    TagRule(Name, "template", ["template"]),
    TagRule(Name, "draft", ["draft"]),
    TagRule(Name, "final", ["final"]),
    TagRule(Name, "signed", ["signed"])
  ]

  /** The text a rule is matched against. */
  function SubjectText(f: FileInfo, subject: RuleSubject): string
  {
    match subject
    case Mime => f.mimeType
    case Name => ToLower(f.name)
  }

  /** The tags of the first `k` rules that match, in rule order. */
  function RuleTags(f: FileInfo, rules: seq<TagRule>, k: nat): seq<string>
    requires k <= |rules|
    decreases k
  {
    if k == 0 then [] else
      RuleTags(f, rules, k - 1) +
      (if Contains(SubjectText(f, rules[k - 1].subject), rules[k - 1].fragment) then rules[k - 1].tags else [])
  }

  /** What `generateAutoTags` returns: only tags from the fixed vocabulary of the rules. */
  function AutoTagsOf(f: FileInfo): (tags: seq<string>)
    ensures forall x :: x in tags ==> x in RuleVocabulary
  {
    RuleTagsInVocabulary(f);
    RuleTags(f, AutoTagRules, |AutoTagRules|)
  }

  lemma RuleStep(f: FileInfo, rules: seq<TagRule>, k: nat, subject: RuleSubject, fragment: string, tags: seq<string>)
    requires k < |rules| && rules[k] == TagRule(subject, fragment, tags)
    ensures RuleTags(f, rules, k + 1) ==
      RuleTags(f, rules, k) + (if Contains(SubjectText(f, subject), fragment) then tags else [])
  {
  }

  /** `if (text.includes(fragment)) tags.push(...add)`. */
  method PushWhen(tags: seq<string>, text: string, fragment: string, add: seq<string>) returns (tags': seq<string>)
    ensures tags' == tags + (if Contains(text, fragment) then add else [])
  {
    tags' := tags;
    if Contains(text, fragment) {
      tags' := tags' + add;
    }
  }

  /** The four MIME-type rules written out: one conditional block of tags per rule, in order. */
  lemma MimeRulesUnrolled(f: FileInfo)
    ensures RuleTags(f, AutoTagRules, 4) == (((([]
      + (if Contains(f.mimeType, "pdf") then ["pdf"] else []))
      + (if Contains(f.mimeType, "word") then ["word", "document"] else []))
      + (if Contains(f.mimeType, "excel") then ["excel", "spreadsheet"] else []))
      + (if Contains(f.mimeType, "image") then ["image"] else []))
  {
    var r := AutoTagRules;
    ghost var k := 0;
    RuleStep(f, r, k, Mime, "pdf", ["pdf"]);
    k := k + 1;
    RuleStep(f, r, k, Mime, "word", ["word", "document"]);
    k := k + 1;
    RuleStep(f, r, k, Mime, "excel", ["excel", "spreadsheet"]);
    k := k + 1;
    RuleStep(f, r, k, Mime, "image", ["image"]);
  }

  /** The next seven rules, on the lower-cased name, written out after the MIME-type tags. */
  lemma FirstElevenUnrolled(f: FileInfo)
    ensures RuleTags(f, AutoTagRules, 11) == (((((((RuleTags(f, AutoTagRules, 4)
      + (if Contains(ToLower(f.name), "contract") then ["contract", "legal"] else []))
      + (if Contains(ToLower(f.name), "nda") then ["nda", "confidential"] else []))
      + (if Contains(ToLower(f.name), "agreement") then ["agreement", "legal"] else []))
      + (if Contains(ToLower(f.name), "invoice") then ["invoice", "financial"] else []))
      + (if Contains(ToLower(f.name), "template") then ["template"] else []))
      + (if Contains(ToLower(f.name), "draft") then ["draft"] else []))
      + (if Contains(ToLower(f.name), "final") then ["final"] else []))
  {
    var r := AutoTagRules;
    ghost var k := 4;
    RuleStep(f, r, k, Name, "contract", ["contract", "legal"]);
    k := k + 1;
    RuleStep(f, r, k, Name, "nda", ["nda", "confidential"]);
    k := k + 1;
    RuleStep(f, r, k, Name, "agreement", ["agreement", "legal"]);
    k := k + 1;
    RuleStep(f, r, k, Name, "invoice", ["invoice", "financial"]);
    k := k + 1;
    RuleStep(f, r, k, Name, "template", ["template"]);
    k := k + 1;
    RuleStep(f, r, k, Name, "draft", ["draft"]);
    k := k + 1;
    RuleStep(f, r, k, Name, "final", ["final"]);
  }

  /** The service's tags are the first eleven rules' tags, then `signed` when the name says so. */
  lemma AutoTagsUnrolled(f: FileInfo)
    ensures AutoTagsOf(f) ==
      RuleTags(f, AutoTagRules, 11) + (if Contains(ToLower(f.name), "signed") then ["signed"] else [])
  {
    RuleStep(f, AutoTagRules, 11, Name, "signed", ["signed"]);
  }

  /** `generateAutoTags`: push the tags of each matching rule, in order. */
  method GenerateAutoTags(f: FileInfo) returns (tags: seq<string>)
    ensures tags == AutoTagsOf(f)
  {
    tags := [];
    var fileName := ToLower(f.name);
    var fileType := f.mimeType;
    tags := PushWhen(tags, fileType, "pdf", ["pdf"]);
    tags := PushWhen(tags, fileType, "word", ["word", "document"]);
    tags := PushWhen(tags, fileType, "excel", ["excel", "spreadsheet"]);
    tags := PushWhen(tags, fileType, "image", ["image"]);
    tags := PushWhen(tags, fileName, "contract", ["contract", "legal"]);
    tags := PushWhen(tags, fileName, "nda", ["nda", "confidential"]);
    tags := PushWhen(tags, fileName, "agreement", ["agreement", "legal"]);
    tags := PushWhen(tags, fileName, "invoice", ["invoice", "financial"]);
    tags := PushWhen(tags, fileName, "template", ["template"]);
    tags := PushWhen(tags, fileName, "draft", ["draft"]);
    tags := PushWhen(tags, fileName, "final", ["final"]);
    tags := PushWhen(tags, fileName, "signed", ["signed"]);
    MimeRulesUnrolled(f);
    FirstElevenUnrolled(f);
    AutoTagsUnrolled(f);
  }

  /** Every rule tag comes from a rule whose fragment occurs in the text. */
  lemma {:induction false} RuleTagsSource(f: FileInfo, rules: seq<TagRule>, k: nat, x: string)
    requires k <= |rules|
    ensures x in RuleTags(f, rules, k) <==>
      exists j :: 0 <= j < k && Contains(SubjectText(f, rules[j].subject), rules[j].fragment) && x in rules[j].tags
    decreases k
  {
    if k > 0 {
      RuleTagsSource(f, rules, k - 1, x);
    }
  }

  /** The tags any rule of the two tables can produce. */
  const RuleVocabulary: set<string> := {
    "pdf", "word", "document", "excel", "spreadsheet", "image", "contract", "legal", "nda",
    "confidential", "agreement", "invoice", "financial", "template", "draft", "final", "signed"}

  lemma ProposalNotInVocabulary()
    ensures "proposal" !in RuleVocabulary
  {
  }

  /** Every tag the whole rule table can produce is in its vocabulary. */
  lemma RuleTagsInVocabulary(f: FileInfo)
    ensures forall x :: x in RuleTags(f, AutoTagRules, |AutoTagRules|) ==> x in RuleVocabulary
  {
    var r := AutoTagRules;
    forall x | x in RuleTags(f, r, 12) ensures x in RuleVocabulary {
      RuleTagsSource(f, r, 12, x);
      var j :| 0 <= j < 12 && Contains(SubjectText(f, r[j].subject), r[j].fragment) && x in r[j].tags;
      assert j in {0, 1, 2, 3, 4, 5, 6, 7, 8, 9, 10, 11};
    }
  }

  /** The tags of fewer rules are a prefix of the tags of more. */
  lemma {:induction false} RuleTagsPrefix(f: FileInfo, rules: seq<TagRule>, k: nat, k': nat)
    requires k <= k' <= |rules|
    ensures |RuleTags(f, rules, k)| <= |RuleTags(f, rules, k')|
    ensures RuleTags(f, rules, k')[..|RuleTags(f, rules, k)|] == RuleTags(f, rules, k)
    decreases k'
  {
    if k < k' {
      RuleTagsPrefix(f, rules, k, k' - 1);
    }
  }

  /** A keyword in the name, in any letter case, brings in its rule's tags, and a PDF's first tag is `pdf`. */
  lemma KeywordTags(f: FileInfo)
    ensures Contains(ToLower(f.name), "nda") ==> "nda" in AutoTagsOf(f) && "confidential" in AutoTagsOf(f)
    ensures Contains(ToLower(f.name), "invoice") ==> "invoice" in AutoTagsOf(f) && "financial" in AutoTagsOf(f)
    ensures Contains(f.mimeType, "pdf") ==> |AutoTagsOf(f)| > 0 && AutoTagsOf(f)[0] == "pdf"
  {
    var r := AutoTagRules;
    if Contains(ToLower(f.name), "nda") {
      assert r[5] == TagRule(Name, "nda", ["nda", "confidential"]);
      RuleBringsTags(f, 5, "nda");
      RuleBringsTags(f, 5, "confidential");
    }
    if Contains(ToLower(f.name), "invoice") {
      assert r[7] == TagRule(Name, "invoice", ["invoice", "financial"]);
      RuleBringsTags(f, 7, "invoice");
      RuleBringsTags(f, 7, "financial");
    }
    if Contains(f.mimeType, "pdf") {
      PdfTagFirst(f);
    }
  }

  /** A matching rule's tags are among the service's tags. */
  lemma RuleBringsTags(f: FileInfo, j: nat, x: string)
    requires j < |AutoTagRules|
    requires Contains(SubjectText(f, AutoTagRules[j].subject), AutoTagRules[j].fragment) && x in AutoTagRules[j].tags
    ensures x in AutoTagsOf(f)
  {
    RuleTagsSource(f, AutoTagRules, 12, x);
  }

  lemma PdfTagFirst(f: FileInfo)
    requires Contains(f.mimeType, "pdf")
    ensures |AutoTagsOf(f)| > 0 && AutoTagsOf(f)[0] == "pdf"
  {
    RuleStep(f, AutoTagRules, 0, Mime, "pdf", ["pdf"]);
    RuleTagsPrefix(f, AutoTagRules, 1, 12);
  }

  // ---------------------------------------------------------------------------
  // Tag merge

  /** `[...new Set(s)]` after the elements in `seen`: first occurrences, in order. */
  function DedupAfter(s: seq<string>, seen: set<string>): (r: seq<string>)
    ensures |r| <= |s|
    ensures forall i :: 0 <= i < |r| ==> r[i] in s && r[i] !in seen
    decreases |s|
  {
    if |s| == 0 then []
    else if s[0] in seen then DedupAfter(s[1..], seen)
    else [s[0]] + DedupAfter(s[1..], seen + {s[0]})
  }

  /** `[...new Set([...tags, ...autoTags])]`. */
  function MergeTags(tags: seq<string>, autoTags: seq<string>): (merged: seq<string>)
    ensures |merged| <= |tags| + |autoTags|
    ensures forall i :: 0 <= i < |merged| ==> merged[i] in tags || merged[i] in autoTags
  {
    DedupAfter(tags + autoTags, {})
  }

  predicate Distinct(s: seq<string>) {
    forall i, j :: 0 <= i < j < |s| ==> s[i] != s[j]
  }

  /** The deduplicated list holds each unseen element of the input once, and nothing else. */
  lemma {:induction false} DedupAfterSpec(s: seq<string>, seen: set<string>)
    ensures forall x :: x in DedupAfter(s, seen) <==> x in s && x !in seen
    ensures Distinct(DedupAfter(s, seen))
    decreases |s|
  {
    if |s| > 0 {
      DedupAfterSpec(s[1..], seen);
      DedupAfterSpec(s[1..], seen + {s[0]});
      assert s == [s[0]] + s[1..];
      if s[0] !in seen {
        var r := [s[0]] + DedupAfter(s[1..], seen + {s[0]});
        forall i, j | 0 <= i < j < |r| ensures r[i] != r[j] {
          if i == 0 {
            assert r[j] in DedupAfter(s[1..], seen + {s[0]});
          } else {
            assert r[i] == DedupAfter(s[1..], seen + {s[0]})[i - 1];
          }
        }
      }
    }
  }

  /** A list already free of duplicates and of seen elements is kept as it is. */
  lemma {:induction false} DedupAfterDistinct(s: seq<string>, seen: set<string>)
    requires Distinct(s) && forall i :: 0 <= i < |s| ==> s[i] !in seen
    ensures DedupAfter(s, seen) == s
    decreases |s|
  {
    if |s| > 0 {
      DedupAfterDistinct(s[1..], seen + {s[0]});
    }
  }

  /** Deduplicating `a + b` is deduplicating `a`, then what is new in `b`. */
  lemma {:induction false} DedupAfterAppend(a: seq<string>, b: seq<string>, seen: set<string>)
    ensures DedupAfter(a + b, seen) == DedupAfter(a, seen) + DedupAfter(b, seen + set x | x in a)
    decreases |a|
  {
    if |a| == 0 {
      assert a + b == b;
      assert (set x | x in a) == {};
      assert seen + {} == seen;
    } else {
      assert (a + b)[1..] == a[1..] + b;
      if a[0] in seen {
        DedupAfterAppend(a[1..], b, seen);
        assert seen + (set x | x in a) == seen + (set x | x in a[1..]);
      } else {
        DedupAfterAppend(a[1..], b, seen + {a[0]});
        assert seen + (set x | x in a) == seen + {a[0]} + (set x | x in a[1..]);
      }
    }
  }

  /**
   * The merged tags: the caller's tags come first, unchanged when they hold no
   * duplicate; then each automatic tag not already present; every tag of both
   * lists is there exactly once.
   */
  lemma MergeTagsSpec(tags: seq<string>, autoTags: seq<string>)
    ensures forall x :: x in MergeTags(tags, autoTags) <==> x in tags || x in autoTags
    ensures Distinct(MergeTags(tags, autoTags))
    ensures Distinct(tags) ==> |tags| <= |MergeTags(tags, autoTags)| && MergeTags(tags, autoTags)[..|tags|] == tags
  {
    DedupAfterSpec(tags + autoTags, {});
    if Distinct(tags) {
      DedupAfterAppend(tags, autoTags, {});
      DedupAfterDistinct(tags, {});
    }
  }

  // ---------------------------------------------------------------------------
  // Classification and records

  /** `getDocumentType`: pdf, word, excel, image, text in that order; `other` when none occurs. */
  function GetDocumentType(mimeType: string): (t: string)
    ensures Contains(mimeType, "pdf") ==> t == "pdf"
    ensures t == "other" <==>
      !Contains(mimeType, "pdf") && !Contains(mimeType, "word") && !Contains(mimeType, "excel") &&
      !Contains(mimeType, "image") && !Contains(mimeType, "text")
    ensures t in {"pdf", "document", "spreadsheet", "image", "text", "other"}
    ensures !Contains(mimeType, "pdf") && Contains(mimeType, "word") ==> t == "document"
    ensures !Contains(mimeType, "pdf") && !Contains(mimeType, "word") && Contains(mimeType, "excel") ==>
      t == "spreadsheet"
    ensures (!Contains(mimeType, "pdf") && !Contains(mimeType, "word") && !Contains(mimeType, "excel") &&
             Contains(mimeType, "image")) ==> t == "image"
    ensures (!Contains(mimeType, "pdf") && !Contains(mimeType, "word") && !Contains(mimeType, "excel") &&
             !Contains(mimeType, "image") && Contains(mimeType, "text")) ==> t == "text"
  {
    if Contains(mimeType, "pdf") then "pdf"
    else if Contains(mimeType, "word") then "document"
    else if Contains(mimeType, "excel") then "spreadsheet"
    else if Contains(mimeType, "image") then "image"
    else if Contains(mimeType, "text") then "text"
    else "other"
  }

  /** A Word file that does not mention pdf is a `document`, which is also one of its automatic tags. */
  lemma WordTypeMatchesWordTag(f: FileInfo)
    requires Contains(f.mimeType, "word") && !Contains(f.mimeType, "pdf")
    ensures GetDocumentType(f.mimeType) == "document" && "document" in AutoTagsOf(f)
  {
    var r := AutoTagRules;
    assert r[1] == TagRule(Mime, "word", ["word", "document"]);
    RuleTagsSource(f, r, 12, "document");
  }

  /** The row `uploadDocument` inserts. */
  datatype DocumentRow = DocumentRow(
    id: string,
    name: string,
    docType: string,
    status: string,
    file_url: string,
    file_size: int,
    mime_type: string,
    tags: Option<seq<string>>,
    folder_id: Option<string>,
    priority: string,
    due_date: Option<string>,
    version: int,
    created_by: string,
    assigned_to: Option<string>,
    created_at: string,
    updated_at: string)

  /** `DocumentMetadata`. */
  datatype DocumentMetadata = DocumentMetadata(
    id: string,
    name: string,
    docType: string,
    status: string,
    fileUrl: string,
    fileSize: int,
    mimeType: string,
    tags: seq<string>,
    folderId: Option<string>,
    priority: string,
    dueDate: Option<string>,
    version: int,
    createdBy: string,
    assignedTo: Option<string>,
    createdAt: string,
    updatedAt: string)

  /** `DocumentUpload`: tags default to none and priority to `medium`. */
  datatype DocumentUpload = DocumentUpload(
    file: FileInfo,
    folderId: Option<string>,
    tags: Option<seq<string>>,
    priority: Option<string>,
    dueDate: Option<string>)

  /** The storage object name: the new id, a dash, the file name. */
  function StorageName(fileId: string, fileName: string): (s: string)
    ensures StartsWith(s, fileId + "-") && s[|fileId| + 1..] == fileName
  {
    fileId + "-" + fileName
  }

  /**
   * The row `uploadDocument` inserts, or the error it throws when no user is
   * signed in: a `draft` at version 1, named after the file, typed from its
   * MIME type, with the merged tags.
   */
  function NewDocumentRow(fileId: string, upload: DocumentUpload, publicUrl: string, user: Option<string>, now: string)
    : (r: Result<DocumentRow>)
    ensures user.None? <==> r.Failure?
    ensures r.Failure? ==> r.error == "User not authenticated"
    ensures r.Success? ==> r.value.status == "draft" && r.value.version == 1 && r.value.id == fileId
    ensures r.Success? ==> r.value.name == upload.file.name && r.value.created_by == user.value
    ensures r.Success? ==> r.value.docType == GetDocumentType(upload.file.mimeType)
    ensures r.Success? ==> r.value.tags == Some(MergeTags(upload.tags.GetOr([]), AutoTagsOf(upload.file)))
    ensures r.Success? ==> r.value.priority == (if upload.priority.Some? then upload.priority.value else "medium")
  {
    if user.None? then Failure("User not authenticated")
    else
      var f := upload.file;
      Success(DocumentRow(fileId, f.name, GetDocumentType(f.mimeType), "draft", publicUrl, f.size, f.mimeType,
        Some(MergeTags(upload.tags.GetOr([]), AutoTagsOf(f))), upload.folderId, upload.priority.GetOr("medium"),
        upload.dueDate, 1, user.value, None, now, now))
  }

  /** `mapToDocumentMetadata`: null tags become an empty list; the rest is copied. */
  function MapToDocumentMetadata(row: DocumentRow): (d: DocumentMetadata)
    ensures d.tags == (if row.tags.Some? then row.tags.value else [])
    ensures d.status == row.status && d.version == row.version && d.name == row.name
  {
    DocumentMetadata(row.id, row.name, row.docType, row.status, row.file_url, row.file_size, row.mime_type,
      row.tags.GetOr([]), row.folder_id, row.priority, row.due_date, row.version, row.created_by,
      row.assigned_to, row.created_at, row.updated_at)
  }

  /** The proposal notification: the lower-cased name mentions `proposal`, or the merged tags hold it. */
  predicate ProposalTriggered(fileName: string, allTags: seq<string>) {
    Contains(ToLower(fileName), "proposal") || "proposal" in allTags
  }

  /**
   * No rule produces the tag `proposal`, so on upload the tag side of the
   * trigger fires only when the caller tagged the file so.
   */
  lemma ProposalOnlyFromNameOrCallerTags(f: FileInfo, tags: seq<string>)
    ensures ProposalTriggered(f.name, MergeTags(tags, AutoTagsOf(f))) <==>
      Contains(ToLower(f.name), "proposal") || "proposal" in tags
  {
    MergeTagsSpec(tags, AutoTagsOf(f));
    if "proposal" in AutoTagsOf(f) {
      ProposalNotInVocabulary();
    }
  }

  /** `updateDocument` reports a status change only between two non-empty, different statuses. */
  predicate StatusChangeNotified(oldStatus: Option<string>, newStatus: Option<string>) {
    oldStatus.Some? && oldStatus.value != "" && newStatus.Some? && newStatus.value != "" &&
    oldStatus.value != newStatus.value
  }

  /** The notification names a real change: never the same status, never a missing one. */
  lemma StatusChangeMeaning(oldStatus: Option<string>, newStatus: Option<string>)
    ensures StatusChangeNotified(oldStatus, newStatus) ==> oldStatus != newStatus
    ensures StatusChangeNotified(oldStatus, newStatus) ==> oldStatus.Some? && newStatus.Some?
    ensures oldStatus.Some? && newStatus.Some? && oldStatus.value != "" && newStatus.value != "" ==>
      (StatusChangeNotified(oldStatus, newStatus) <==> oldStatus.value != newStatus.value)
  {
  }

  /** A new upload reads back as a version-1 draft carrying every caller and automatic tag once. */
  lemma UploadedDocumentReadsBack(fileId: string, upload: DocumentUpload, url: string, user: string, now: string)
    ensures NewDocumentRow(fileId, upload, url, Some(user), now).Success?
    ensures var d := MapToDocumentMetadata(NewDocumentRow(fileId, upload, url, Some(user), now).value);
      d.status == "draft" && d.version == 1 && d.name == upload.file.name && Distinct(d.tags) &&
      (forall x :: x in d.tags <==> x in upload.tags.GetOr([]) || x in AutoTagsOf(upload.file))
  {
    MergeTagsSpec(upload.tags.GetOr([]), AutoTagsOf(upload.file));
  }
}
