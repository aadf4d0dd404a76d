/** The acceptance rule the client applies to a chosen clip file (`handleFileSelection`). */
module FileRules {
  import opened Wrappers
  import opened Notices

  /** A file as the browser reports it: name, size in bytes and MIME type. */
  datatype ClipFile = ClipFile(name: string, size: nat, mimeType: string)

  /** 2 GiB, the largest accepted size in bytes. */
  const MaxSize: nat := 2 * 1024 * 1024 * 1024

  const ValidTypes: seq<string> := [
    "video/mp4",
    "video/quicktime",
    "video/avi",
    "video/x-msvideo",
    "video/x-matroska",
    "video/webm"
  ]

  datatype Rejection = TooLarge | UnsupportedType

  function RejectionMessage(r: Rejection): string {
    match r
    case TooLarge => "File size must be less than 2GB"
    case UnsupportedType => "Please upload a valid video file (MP4, MOV, AVI, MKV, WEBM)"
  }

  /** The size test comes first; the type test is only reached by a file that is small enough. */
  function CheckFile(f: ClipFile): (r: Option<Rejection>)
    ensures r == None <==> f.size <= MaxSize && f.mimeType in ValidTypes
    ensures r == Some(TooLarge) <==> f.size > MaxSize
    ensures r == Some(UnsupportedType) <==> f.size <= MaxSize && f.mimeType !in ValidTypes
  {
    if f.size > MaxSize then Some(TooLarge)
    else if f.mimeType !in ValidTypes then Some(UnsupportedType)
    else None
  }

  /** What a selection leaves in the file input, and the message it shows. */
  datatype Selection = Selection(kept: Option<ClipFile>, notice: Option<Notice>)

  /**
   `handleFileSelection` applied to the first file of the input: an accepted file
   stays selected, a rejected one is cleared (`fileInput.value = ''`), and no
   file at all changes nothing.
   */
  function HandleFileSelection(chosen: Option<ClipFile>): (r: Selection)
    ensures chosen.None? ==> r == Selection(None, None)
    ensures r.kept.Some? <==> chosen.Some? && CheckFile(chosen.value).None?
    ensures r.kept.Some? ==> r.kept == chosen && r.notice == Some(FileReady(chosen.value.name))
    ensures chosen.Some? && CheckFile(chosen.value).Some? ==>
              r.notice == Some(Warning(RejectionMessage(CheckFile(chosen.value).value)))
  {
    match chosen
    case None => Selection(None, None)
    case Some(f) =>
      match CheckFile(f)
      case Some(why) => Selection(None, Some(Warning(RejectionMessage(why))))
      case None => Selection(Some(f), Some(FileReady(f.name)))
  }

  /** A file of exactly 2 GiB passes the size test; one byte more does not. */
  lemma SizeBoundary(name: string, mimeType: string)
    ensures CheckFile(ClipFile(name, MaxSize, mimeType)) != Some(TooLarge)
    ensures CheckFile(ClipFile(name, MaxSize + 1, mimeType)) == Some(TooLarge)
    ensures MaxSize == 2147483648
  {
  }

  /** An oversized file is reported as too large whatever its type, so the type message never hides it. */
  lemma SizeReportedBeforeType(f: ClipFile, otherType: string)
    requires f.size > MaxSize
    ensures CheckFile(f) == CheckFile(f.(mimeType := otherType)) == Some(TooLarge)
  {
  }

  /** Acceptance is closed under shrinking: a smaller file of an accepted type is accepted too. */
  lemma AcceptanceDownwardClosed(f: ClipFile, smaller: nat)
    requires CheckFile(f).None? && smaller <= f.size
    ensures CheckFile(f.(size := smaller)).None?
  {
  }
}
