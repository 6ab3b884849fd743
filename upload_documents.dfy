/**
 * The upload page of src/pages/UploadDocuments.tsx: its own automatic tags
 * (name keywords, then the file extension), the entries `handleFiles`
 * appends, `removeFile`, and the completed count shown on the page.
 */
module UploadDocuments {
  import opened Text
  import opened DocumentService

  /** A keyword of the lower-cased file name and the tags it brings. */
  datatype KeywordRule = KeywordRule(keyword: string, tags: seq<string>)

  /** The page's rules, in the order they are tested. */
  const KeywordRules: seq<KeywordRule> := [
    KeywordRule("contract", ["contract"]),
    KeywordRule("nda", ["nda", "confidential"]),
    KeywordRule("agreement", ["agreement"]),
    KeywordRule("invoice", ["invoice", "financial"]),
    KeywordRule("template", ["template"]),
    KeywordRule("legal", ["legal"]),
    KeywordRule("hr", ["hr"])
  ]

  /** The tags of the first `k` rules that occur in `name`, in rule order. */
  function KeywordTags(name: string, rules: seq<KeywordRule>, k: nat): seq<string>
    requires k <= |rules|
  {
    if k == 0 then []
    else KeywordTags(name, rules, k - 1) + (if Contains(name, rules[k - 1].keyword) then rules[k - 1].tags else [])
  }

  /** The extension tag: what follows the last `.` of the name as given, when that is not empty. */
  function ExtensionTag(filename: string): seq<string>
  {
    var extension := AfterLastDot(filename);
    if extension != "" then [extension] else []
  }

  /** What `generateAutoTags` returns for a file name. */
  function PageTagsOf(filename: string): seq<string>
  {
    KeywordTags(ToLower(filename), KeywordRules, |KeywordRules|) + ExtensionTag(filename)
  }

  lemma KeywordStep(name: string, rules: seq<KeywordRule>, k: nat, keyword: string, tags: seq<string>)
    requires k < |rules| && rules[k] == KeywordRule(keyword, tags)
    ensures KeywordTags(name, rules, k + 1) == KeywordTags(name, rules, k) + (if Contains(name, keyword) then tags else [])
  {
  }

  /** The seven rules written out one after another. */
  lemma KeywordRulesUnrolled(name: string)
    ensures KeywordTags(name, KeywordRules, 7) == ((((((([]
      + (if Contains(name, "contract") then ["contract"] else []))
      + (if Contains(name, "nda") then ["nda", "confidential"] else []))
      + (if Contains(name, "agreement") then ["agreement"] else []))
      + (if Contains(name, "invoice") then ["invoice", "financial"] else []))
      + (if Contains(name, "template") then ["template"] else []))
      + (if Contains(name, "legal") then ["legal"] else []))
      + (if Contains(name, "hr") then ["hr"] else []))
  {
    var r := KeywordRules;
    ghost var k := 0;
    KeywordStep(name, r, k, "contract", ["contract"]);
    k := k + 1;
    KeywordStep(name, r, k, "nda", ["nda", "confidential"]);
    k := k + 1;
    KeywordStep(name, r, k, "agreement", ["agreement"]);
    k := k + 1;
    KeywordStep(name, r, k, "invoice", ["invoice", "financial"]);
    k := k + 1;
    KeywordStep(name, r, k, "template", ["template"]);
    k := k + 1;
    KeywordStep(name, r, k, "legal", ["legal"]);
    k := k + 1;
    KeywordStep(name, r, k, "hr", ["hr"]);
  }

  /** `generateAutoTags`: push the tags of each keyword found, then the extension if it is not empty. */
  method GenerateAutoTags(filename: string) returns (tags: seq<string>)
    ensures tags == PageTagsOf(filename)
  {
    tags := PushKeywordTags(ToLower(filename));
    var extension := AfterLastDot(filename);
    if extension != "" {
      tags := tags + [extension];
    }
  }

  /** The keyword part of `generateAutoTags`, on the lower-cased name. */
  method PushKeywordTags(name: string) returns (tags: seq<string>)
    ensures tags == KeywordTags(name, KeywordRules, |KeywordRules|)
  {
    tags := [];
    tags := PushWhen(tags, name, "contract", ["contract"]);
    tags := PushWhen(tags, name, "nda", ["nda", "confidential"]);
    tags := PushWhen(tags, name, "agreement", ["agreement"]);
    tags := PushWhen(tags, name, "invoice", ["invoice", "financial"]);
    tags := PushWhen(tags, name, "template", ["template"]);
    tags := PushWhen(tags, name, "legal", ["legal"]);
    tags := PushWhen(tags, name, "hr", ["hr"]);
    KeywordRulesUnrolled(name);
  }

  /** A keyword tag is present exactly when some rule carrying it matched. */
  lemma {:induction false} KeywordTagsSource(name: string, rules: seq<KeywordRule>, k: nat, x: string)
    requires k <= |rules|
    ensures x in KeywordTags(name, rules, k) <==>
      exists j :: 0 <= j < k && Contains(name, rules[j].keyword) && x in rules[j].tags
    decreases k
  {
    if k > 0 {
      KeywordTagsSource(name, rules, k - 1, x);
    }
  }

  /**
   * `nda` brings `confidential` with it and `invoice` brings `financial`, and
   * the last tag is the extension whenever there is one.
   */
  lemma PageTagsFacts(filename: string)
    ensures Contains(ToLower(filename), "nda") ==>
      "nda" in PageTagsOf(filename) && "confidential" in PageTagsOf(filename)
    ensures Contains(ToLower(filename), "invoice") ==>
      "invoice" in PageTagsOf(filename) && "financial" in PageTagsOf(filename)
    ensures AfterLastDot(filename) != "" ==>
      |PageTagsOf(filename)| > 0 && PageTagsOf(filename)[|PageTagsOf(filename)| - 1] == AfterLastDot(filename)
    ensures AfterLastDot(filename) == "" ==>
      PageTagsOf(filename) == KeywordTags(ToLower(filename), KeywordRules, 7)
  {
    var name, r := ToLower(filename), KeywordRules;
    KeywordTagsSource(name, r, 7, "nda");
    KeywordTagsSource(name, r, 7, "confidential");
    KeywordTagsSource(name, r, 7, "invoice");
    KeywordTagsSource(name, r, 7, "financial");
    assert r[1] == KeywordRule("nda", ["nda", "confidential"]);
    assert r[3] == KeywordRule("invoice", ["invoice", "financial"]);
  }

  /**
   * The extension is taken from the name as given, not lower-cased, and is
   * the text after the last dot; a name without a dot is tagged with itself.
   */
  lemma ExtensionTagMeaning(filename: string)
    ensures var ext := AfterLastDot(filename);
      ExtensionTag(filename) == (if ext == "" then [] else [ext]) &&
      |ext| <= |filename| && '.' !in ext && filename[|filename| - |ext|..] == ext &&
      (|ext| < |filename| ==> filename[|filename| - |ext| - 1] == '.')
    ensures '.' !in filename && filename != "" ==> ExtensionTag(filename) == [filename]
  {
    AfterLastDotSuffix(filename);
    if '.' !in filename {
      AfterLastDotNoDot(filename);
    }
  }

  /** A name ending in a dot gets no extension tag. */
  lemma TrailingDotNoExtension(stem: string)
    ensures ExtensionTag(stem + ".") == []
  {
  }

  lemma ThreeLowerCase()
    ensures ToLower("three.txt") == "three.txt"
  {
    var s := "three.txt";
    assert forall i :: 0 <= i < |s| ==> !('A' <= s[i] <= 'Z');
  }

  lemma ThreeKeywords()
    ensures KeywordTags("three.txt", KeywordRules, 7) == ["hr"]
  {
    var s := "three.txt";
    NotContainsMissingChar(s, "contract", 0);
    NotContainsMissingChar(s, "nda", 0);
    NotContainsMissingChar(s, "agreement", 0);
    NotContainsMissingChar(s, "invoice", 0);
    NotContainsMissingChar(s, "template", 2);
    NotContainsMissingChar(s, "legal", 0);
    assert OccursAt(s, "hr", 1);
    KeywordRulesUnrolled(s);
  }

  lemma ThreeExtension()
    ensures AfterLastDot("three.txt") == "txt"
  {
    var s := "three.txt";
    AfterLastDotSuffix(s);
    var e := AfterLastDot(s);
    assert s[5] == '.' && '.' !in s[6..];
  }

  /** `hr` is matched inside words: `three.txt` is tagged as an HR file. */
  lemma HrMatchesInsideWords()
    ensures PageTagsOf("three.txt") == ["hr", "txt"]
  {
    ThreeLowerCase();
    ThreeKeywords();
    ThreeExtension();
  }

  // ---------------------------------------------------------------------------
  // The upload list

  datatype PageStatus = Uploading | Completed | Failed

  /** `UploadedFile`: one entry of the page's list. Progress is a whole percentage. */
  datatype UploadedFile = UploadedFile(
    id: string,
    name: string,
    size: int,
    mimeType: string,
    status: PageStatus,
    progress: int,
    folder: string,
    tags: seq<string>)

  /** The entry `handleFiles` makes for one file. */
  function NewUploadedFile(id: string, f: FileInfo, folder: string, autoTagging: bool): UploadedFile
  {
    UploadedFile(id, f.name, f.size, f.mimeType, Uploading, 0, folder, if autoTagging then PageTagsOf(f.name) else [])
  }

  /** `handleFiles`: one new entry per file, after the existing ones; ids are supplied by the caller. */
  function HandleFiles(prev: seq<UploadedFile>, files: seq<FileInfo>, ids: seq<string>,
                       folder: string, autoTagging: bool): (r: seq<UploadedFile>)
    requires |ids| == |files|
    ensures |r| == |prev| + |files| && r[..|prev|] == prev
    ensures forall i :: 0 <= i < |files| ==>
      r[|prev| + i].status == Uploading && r[|prev| + i].progress == 0 &&
      r[|prev| + i].folder == folder && r[|prev| + i].name == files[i].name &&
      r[|prev| + i].id == ids[i] && r[|prev| + i].size == files[i].size &&
      r[|prev| + i].mimeType == files[i].mimeType &&
      r[|prev| + i].tags == (if autoTagging then PageTagsOf(files[i].name) else [])
  {
    prev + seq(|files|, i requires 0 <= i < |files| => NewUploadedFile(ids[i], files[i], folder, autoTagging))
  }

  /** `removeFile`: `prev.filter(file => file.id !== fileId)`. */
  function RemoveFile(files: seq<UploadedFile>, id: string): (r: seq<UploadedFile>)
    ensures |r| <= |files|
    decreases |files|
  {
    if |files| == 0 then []
    else (if files[0].id != id then [files[0]] else []) + RemoveFile(files[1..], id)
  }

  /** `completedFiles`: how many entries are completed. */
  function CompletedCount(files: seq<UploadedFile>): nat
    decreases |files|
  {
    if |files| == 0 then 0
    else (if files[0].status == Completed then 1 else 0) + CompletedCount(files[1..])
  }

  /** Removing keeps exactly the entries with another id. */
  lemma {:induction false} RemoveFileMembership(files: seq<UploadedFile>, id: string, x: UploadedFile)
    ensures x in RemoveFile(files, id) <==> x in files && x.id != id
    decreases |files|
  {
    if |files| > 0 {
      RemoveFileMembership(files[1..], id, x);
      assert files == [files[0]] + files[1..];
    }
  }

  /** The completed count never exceeds the total, and equals it exactly when every entry is completed. */
  lemma {:induction false} CompletedCountBound(files: seq<UploadedFile>)
    ensures CompletedCount(files) <= |files|
    ensures CompletedCount(files) == |files| <==> forall i :: 0 <= i < |files| ==> files[i].status == Completed
    decreases |files|
  {
    if |files| > 0 {
      CompletedCountBound(files[1..]);
      if files[0].status == Completed && CompletedCount(files) != |files| {
        var i :| 0 <= i < |files[1..]| && files[1..][i].status != Completed;
        assert files[i + 1].status != Completed;
      }
    }
  }

  /** The count adds up over concatenation. */
  lemma {:induction false} CompletedCountAppend(a: seq<UploadedFile>, b: seq<UploadedFile>)
    ensures CompletedCount(a + b) == CompletedCount(a) + CompletedCount(b)
    decreases |a|
  {
    if |a| == 0 {
      assert a + b == b;
    } else {
      assert (a + b)[1..] == a[1..] + b;
      CompletedCountAppend(a[1..], b);
    }
  }

  /** Entries that are not completed add nothing to the count. */
  lemma {:induction false} NoneCompletedCountsZero(files: seq<UploadedFile>)
    requires forall i :: 0 <= i < |files| ==> files[i].status != Completed
    ensures CompletedCount(files) == 0
    decreases |files|
  {
    if |files| > 0 {
      NoneCompletedCountsZero(files[1..]);
    }
  }

  /** Newly handled files start uploading, so they leave the completed count as it was and raise the total. */
  lemma HandleFilesKeepsCompletedCount(prev: seq<UploadedFile>, files: seq<FileInfo>, ids: seq<string>,
                                       folder: string, autoTagging: bool)
    requires |ids| == |files|
    ensures CompletedCount(HandleFiles(prev, files, ids, folder, autoTagging)) == CompletedCount(prev)
    ensures |HandleFiles(prev, files, ids, folder, autoTagging)| == |prev| + |files|
  {
    var added := seq(|files|, i requires 0 <= i < |files| => NewUploadedFile(ids[i], files[i], folder, autoTagging));
    assert HandleFiles(prev, files, ids, folder, autoTagging) == prev + added;
    CompletedCountAppend(prev, added);
    NoneCompletedCountsZero(added);
  }

  /** Removing an id no entry has changes nothing. */
  lemma {:induction false} RemoveFreshId(prev: seq<UploadedFile>, id: string)
    requires forall i :: 0 <= i < |prev| ==> prev[i].id != id
    ensures RemoveFile(prev, id) == prev
    decreases |prev|
  {
    if |prev| > 0 {
      RemoveFreshId(prev[1..], id);
    }
  }
}
