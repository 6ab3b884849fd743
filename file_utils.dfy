/**
 * The pure helpers of src/utils/fileUtils.ts: the MIME-type allow-list test,
 * the size limit, and the icon chosen for a MIME type.
 */
module FileUtils {
  import opened Text

  /** `allowedTypes.some(type => file.type.includes(type))`. */
  predicate ValidateFileType(mimeType: string, allowedTypes: seq<string>) {
    exists i | 0 <= i < |allowedTypes| :: Contains(mimeType, allowedTypes[i])
  }

  /** Bytes in a megabyte, as `maxSizeInMB * 1024 * 1024` counts them. */
  const BytesPerMB: int := 1024 * 1024

  /** `file.size <= maxSizeInMB * 1024 * 1024`. */
  predicate ValidateFileSize(size: int, maxSizeInMB: int) {
    size <= maxSizeInMB * BytesPerMB
  }

  /** The emoji `getFileIcon` returns. */
  datatype FileIcon =
    | PageFacingUp   // 📄
    | Memo           // 📝
    | FramedPicture  // 🖼️
    | BarChart       // 📊
    | MovieCamera    // 🎥
    | MusicalNote    // 🎵
    | FileFolder     // 📁

  /**
   * `getFileIcon` as written: the first matching test wins, and the test for
   * `document` comes before the tests for spreadsheets and presentations.
   */
  function GetFileIconAsWritten(mimeType: string): (icon: FileIcon)
    ensures Contains(mimeType, "pdf") ==> icon == PageFacingUp
    ensures !Contains(mimeType, "pdf") && Contains(mimeType, "document") ==> icon == Memo
  {
    if Contains(mimeType, "pdf") then PageFacingUp
    else if Contains(mimeType, "word") || Contains(mimeType, "document") then Memo
    else if Contains(mimeType, "image") then FramedPicture
    else if Contains(mimeType, "spreadsheet") || Contains(mimeType, "excel") then BarChart
    else if Contains(mimeType, "presentation") || Contains(mimeType, "powerpoint") then BarChart
    else if Contains(mimeType, "text") then PageFacingUp
    else if Contains(mimeType, "video") then MovieCamera
    else if Contains(mimeType, "audio") then MusicalNote
    else FileFolder
  }

  /**
   * `getFileIcon` with the spreadsheet and presentation tests moved ahead of
   * the word-processing test, so that OpenDocument and Office Open XML
   * spreadsheets and presentations, whose MIME types all contain `document`,
   * get the chart icon.
   */
  function GetFileIcon(mimeType: string): (icon: FileIcon)
    ensures Contains(mimeType, "pdf") ==> icon == PageFacingUp
    ensures !Contains(mimeType, "pdf") && (Contains(mimeType, "spreadsheet") || Contains(mimeType, "presentation"))
            ==> icon == BarChart
    ensures icon == FileFolder <==>
      !Contains(mimeType, "pdf") && !Contains(mimeType, "word") && !Contains(mimeType, "document") &&
      !Contains(mimeType, "image") && !Contains(mimeType, "spreadsheet") && !Contains(mimeType, "excel") &&
      !Contains(mimeType, "presentation") && !Contains(mimeType, "powerpoint") && !Contains(mimeType, "text") &&
      !Contains(mimeType, "video") && !Contains(mimeType, "audio")
  {
    if Contains(mimeType, "pdf") then PageFacingUp
    else if Contains(mimeType, "spreadsheet") || Contains(mimeType, "excel") then BarChart
    else if Contains(mimeType, "presentation") || Contains(mimeType, "powerpoint") then BarChart
    else if Contains(mimeType, "word") || Contains(mimeType, "document") then Memo
    else if Contains(mimeType, "image") then FramedPicture
    else if Contains(mimeType, "text") then PageFacingUp
    else if Contains(mimeType, "video") then MovieCamera
    else if Contains(mimeType, "audio") then MusicalNote
    else FileFolder
  }

  // ---------------------------------------------------------------------------

  /** An empty allow-list rejects every type. */
  lemma EmptyAllowListRejects(mimeType: string)
    ensures !ValidateFileType(mimeType, [])
  {
  }

  /** A type accepted by a list is accepted by any list that includes its entries. */
  lemma AllowListMonotone(mimeType: string, allowed: seq<string>, wider: seq<string>)
    requires forall t :: t in allowed ==> t in wider
    ensures ValidateFileType(mimeType, allowed) ==> ValidateFileType(mimeType, wider)
  {
    if ValidateFileType(mimeType, allowed) {
      var i :| 0 <= i < |allowed| && Contains(mimeType, allowed[i]);
      assert allowed[i] in wider;
      var j :| 0 <= j < |wider| && wider[j] == allowed[i];
    }
  }

  /** An empty entry in the allow-list lets every type through: it occurs in any string. */
  lemma EmptyEntryAcceptsAll(mimeType: string, allowed: seq<string>)
    requires "" in allowed
    ensures ValidateFileType(mimeType, allowed)
  {
    var j :| 0 <= j < |allowed| && allowed[j] == "";
    assert OccursAt(mimeType, "", 0);
  }

  /** The limit is inclusive: exactly `maxSizeInMB` megabytes passes, one byte more does not. */
  lemma SizeLimitInclusive(maxSizeInMB: int)
    ensures ValidateFileSize(maxSizeInMB * 1048576, maxSizeInMB)
    ensures !ValidateFileSize(maxSizeInMB * 1048576 + 1, maxSizeInMB)
  {
  }

  /** A file accepted under a limit is accepted under any larger limit. */
  lemma SizeLimitMonotone(size: int, m: int, m': int)
    requires m <= m'
    ensures ValidateFileSize(size, m) ==> ValidateFileSize(size, m')
  {
  }

  /** The two orderings agree whenever neither a spreadsheet nor a presentation is named. */
  lemma IconOrderingsAgreeElsewhere(mimeType: string)
    requires !Contains(mimeType, "spreadsheet") && !Contains(mimeType, "presentation")
    requires !Contains(mimeType, "excel") && !Contains(mimeType, "powerpoint")
    ensures GetFileIconAsWritten(mimeType) == GetFileIcon(mimeType)
  {
  }

  const OdsMimeType: string := "application/vnd.oasis.opendocument.spreadsheet"
  const OdpMimeType: string := "application/vnd.oasis.opendocument.presentation"

  /** The OpenDocument spreadsheet type has no `f`. */
  lemma OdsLacksF()
    ensures 'f' !in OdsMimeType
  {
    var app, vendor, open, kind := "application/", "vnd.oasis.", "opendocument.", "spreadsheet";
    assert OdsMimeType == app + vendor + open + kind;
    assert 'f' !in app;
    assert 'f' !in vendor;
    assert 'f' !in open;
    assert 'f' !in kind;
  }

  /** The OpenDocument presentation type has no `f`. */
  lemma OdpLacksF()
    ensures 'f' !in OdpMimeType
  {
    var app, vendor, open, kind := "application/", "vnd.oasis.", "opendocument.", "presentation";
    assert OdpMimeType == app + vendor + open + kind;
    assert 'f' !in app;
    assert 'f' !in vendor;
    assert 'f' !in open;
    assert 'f' !in kind;
  }

  /** Neither OpenDocument MIME type contains `pdf`. */
  lemma OpenDocumentTypesLackPdf()
    ensures !Contains(OdsMimeType, "pdf") && !Contains(OdpMimeType, "pdf")
  {
    OdsLacksF();
    OdpLacksF();
    NotContainsMissingChar(OdsMimeType, "pdf", 2);
    NotContainsMissingChar(OdpMimeType, "pdf", 2);
  }

  /** Where `document`, `spreadsheet` and `presentation` occur in the two OpenDocument types. */
  lemma OpenDocumentTypesContain()
    ensures Contains(OdsMimeType, "document") && Contains(OdsMimeType, "spreadsheet")
    ensures Contains(OdpMimeType, "document") && Contains(OdpMimeType, "presentation")
  {
    assert OccursAt(OdsMimeType, "document", 26);
    assert OccursAt(OdpMimeType, "document", 26);
    assert OccursAt(OdsMimeType, "spreadsheet", 35);
    assert OccursAt(OdpMimeType, "presentation", 35);
  }

  /**
   * As written, an OpenDocument spreadsheet and an OpenDocument presentation
   * both get the word-processing icon: their MIME types contain `document`,
   * which is tested before `spreadsheet` and `presentation`. The reordered
   * function gives both the chart icon.
   */
  lemma SpreadsheetIconCounterexample()
    ensures GetFileIconAsWritten(OdsMimeType) == Memo && GetFileIconAsWritten(OdpMimeType) == Memo
    ensures GetFileIcon(OdsMimeType) == BarChart && GetFileIcon(OdpMimeType) == BarChart
  {
    OpenDocumentTypesLackPdf();
    OpenDocumentTypesContain();
  }

  /** As written, no MIME type containing `document` can reach the chart icon, whatever else it names. */
  lemma DocumentShadowsCharts(mimeType: string)
    requires Contains(mimeType, "document")
    ensures GetFileIconAsWritten(mimeType) != BarChart
  {
  }
}
