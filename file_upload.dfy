/** The upload form of the front end: the checks a chosen file must pass, the
    preview of a text file, and what each handler does to the component's state. */
module Upload {
  import opened Wrappers
  import Text
  import StudySession
  import Auth

  /** The largest accepted file: 5 MiB, in bytes. */
  const MaxFileSize := 5 * 1024 * 1024
  const SizeMessage := "File size must be less than 5MB"
  const TypeMessage := "Please upload a PDF or text file."
  const UploadFailedMessage := "Failed to upload document"
  /** The number of characters of a text file the preview shows. */
  const PreviewLength := 200
  const DownloadName := "flashcards.json"

  /** A chosen file: its name, its size in bytes, its MIME type, and its text. */
  datatype SelectedFile = SelectedFile(name: string, size: int, mimeType: string, text: string)

  predicate AcceptedType(mimeType: string) {
    mimeType == "application/pdf" || mimeType == "text/plain"
  }

  /** The message `validateFile` sets, or None when the file passes. The size is
      checked before the type. */
  function ValidationError(f: SelectedFile): (r: Option<string>)
    ensures r.None? <==> f.size <= MaxFileSize && AcceptedType(f.mimeType)
    ensures f.size > MaxFileSize ==> r == Some(SizeMessage)
    ensures f.size <= MaxFileSize && !AcceptedType(f.mimeType) ==> r == Some(TypeMessage)
  {
    if f.size > MaxFileSize then Some(SizeMessage)
    else if !AcceptedType(f.mimeType) then Some(TypeMessage)
    else None
  }

  /** A file of exactly 5 MiB passes the size check; one byte more does not, and an
      oversized file of the wrong type reports its size. */
  lemma SizeLimitIsInclusive(f: SelectedFile)
    requires AcceptedType(f.mimeType)
    ensures f.size == MaxFileSize ==> ValidationError(f).None?
    ensures f.size == MaxFileSize + 1 ==> ValidationError(f) == Some(SizeMessage)
    ensures f.(mimeType := "image/png").size > MaxFileSize ==> ValidationError(f.(mimeType := "image/png")) == Some(SizeMessage)
  {
  }

  /** The text `generatePreview` shows: a text file's first 200 characters, with
      "..." after them when the text is longer; nothing for any other file. */
  function Preview(f: SelectedFile): (r: string)
    ensures f.mimeType != "text/plain" ==> r == ""
    ensures f.mimeType == "text/plain" && |f.text| <= PreviewLength ==> r == f.text
    ensures f.mimeType == "text/plain" && |f.text| > PreviewLength ==> r == f.text[..PreviewLength] + "..."
  {
    if f.mimeType == "text/plain" then
      Text.SliceTo(f.text, PreviewLength) + (if |f.text| > PreviewLength then "..." else "")
    else ""
  }

  /** A preview is never longer than 203 characters and always starts with the
      beginning of the file's text. */
  lemma PreviewBounded(f: SelectedFile)
    ensures |Preview(f)| <= PreviewLength + 3
    ensures var shown := if |f.text| <= PreviewLength then |f.text| else PreviewLength;
            f.mimeType == "text/plain" ==> Preview(f)[..shown] == f.text[..shown]
  {
    if f.mimeType == "text/plain" && |f.text| > PreviewLength {
      assert (f.text[..PreviewLength] + "...")[..PreviewLength] == f.text[..PreviewLength];
    }
  }

  /** What the upload form sends: the document, the language, the number of cards
      (sent as its decimal text) and the authorization header. */
  datatype UploadRequest = UploadRequest(document: SelectedFile, language: string, numFlashcards: int,
                                         authorization: string)

  /** The server's answer: the cards it generated, or a failure (a network error, a
      status that is not ok, or a body that does not decode). */
  datatype ServerResponse = Generated(cards: seq<StudySession.Flashcard>) | Failed

  /** `Bearer ${user.token}`, where a null token prints as "null". */
  function Authorization(user: Auth.User): string {
    "Bearer " + match user.token
                case Some(token) => token
                case None => "null"
  }

  /** The file `handleDownload` offers. */
  datatype Download = Download(fileName: string, cards: seq<StudySession.Flashcard>)

  /** The upload form component. */
  class FileUpload {
    var file: Option<SelectedFile>
    var uploading: bool
    var error: string
    var language: string
    var numFlashcards: int
    var flashcards: seq<StudySession.Flashcard>
    var textPreview: string

    constructor ()
      ensures file == None && !uploading && error == "" && language == "english" && numFlashcards == 5
      ensures flashcards == [] && textPreview == ""
    {
      file := None;
      uploading := false;
      error := "";
      language := "english";
      numFlashcards := 5;
      flashcards := [];
      textPreview := "";
    }

    /** `validateFile(selectedFile)`: a file that fails sets the error message. */
    method ValidateFile(f: SelectedFile) returns (ok: bool)
      modifies this
      ensures ok <==> ValidationError(f).None?
      ensures error == if ok then old(error) else ValidationError(f).value
      ensures file == old(file) && uploading == old(uploading) && language == old(language)
      ensures numFlashcards == old(numFlashcards) && flashcards == old(flashcards) && textPreview == old(textPreview)
    {
      if f.size > MaxFileSize {
        error := SizeMessage;
        return false;
      }
      if f.mimeType != "application/pdf" && f.mimeType != "text/plain" {
        error := TypeMessage;
        return false;
      }
      return true;
    }

    /** `generatePreview(selectedFile)` */
    method GeneratePreview(f: SelectedFile)
      modifies this
      ensures textPreview == Preview(f)
      ensures file == old(file) && uploading == old(uploading) && error == old(error) && language == old(language)
      ensures numFlashcards == old(numFlashcards) && flashcards == old(flashcards)
    {
      if f.mimeType == "text/plain" {
        var text := f.text;
        textPreview := Text.SliceTo(text, PreviewLength) + (if |text| > PreviewLength then "..." else "");
      } else {
        textPreview := "";
      }
    }

    /** `handleFileChange`, given the files of the input (empty when none was
        chosen): a valid first file becomes the file, clears the error and sets the
        preview; an invalid one only sets the error. */
    method HandleFileChange(chosen: seq<SelectedFile>)
      modifies this
      ensures |chosen| == 0 ==> file == old(file) && error == old(error) && textPreview == old(textPreview)
      ensures |chosen| > 0 && ValidationError(chosen[0]).None? ==>
                file == Some(chosen[0]) && error == "" && textPreview == Preview(chosen[0])
      ensures |chosen| > 0 && ValidationError(chosen[0]).Some? ==>
                file == old(file) && error == ValidationError(chosen[0]).value && textPreview == old(textPreview)
      ensures uploading == old(uploading) && language == old(language)
      ensures numFlashcards == old(numFlashcards) && flashcards == old(flashcards)
    {
      if |chosen| > 0 {
        var selectedFile := chosen[0];
        var ok := ValidateFile(selectedFile);
        if ok {
          file := Some(selectedFile);
          error := "";
          GeneratePreview(selectedFile);
        }
      }
    }

    /** `handleDrop`, given the dropped files: the same effects as choosing them. */
    method HandleDrop(dropped: seq<SelectedFile>)
      modifies this
      ensures |dropped| == 0 ==> file == old(file) && error == old(error) && textPreview == old(textPreview)
      ensures |dropped| > 0 && ValidationError(dropped[0]).None? ==>
                file == Some(dropped[0]) && error == "" && textPreview == Preview(dropped[0])
      ensures |dropped| > 0 && ValidationError(dropped[0]).Some? ==>
                file == old(file) && error == ValidationError(dropped[0]).value && textPreview == old(textPreview)
      ensures uploading == old(uploading) && language == old(language)
      ensures numFlashcards == old(numFlashcards) && flashcards == old(flashcards)
    {
      if |dropped| > 0 {
        var droppedFile := dropped[0];
        var ok := ValidateFile(droppedFile);
        if ok {
          file := Some(droppedFile);
          error := "";
          GeneratePreview(droppedFile);
        }
      }
    }

    /** `handleUpload`, for the signed-in record `user` and the server's answer
        `response`: without a file nothing happens; otherwise the request is sent,
        the cards received (if any) are kept and passed on, a failure sets the error
        message, and `uploading` is false again at the end. */
    method HandleUpload(user: Auth.User, response: ServerResponse)
      returns (request: Option<UploadRequest>, received: Option<seq<StudySession.Flashcard>>)
      modifies this
      ensures old(file).None? ==>
                && request.None? && received.None?
                && uploading == old(uploading) && error == old(error) && flashcards == old(flashcards)
      ensures old(file).Some? ==>
                && request == Some(UploadRequest(old(file).value, language, numFlashcards, Authorization(user)))
                && !uploading
                && (response.Generated? ==> flashcards == response.cards && error == "" && received == Some(response.cards))
                && (response.Failed? ==> flashcards == old(flashcards) && error == UploadFailedMessage && received.None?)
      ensures file == old(file) && language == old(language) && numFlashcards == old(numFlashcards)
      ensures textPreview == old(textPreview)
    {
      if file.None? {
        return None, None;
      }
      uploading := true;
      error := "";
      request := Some(UploadRequest(file.value, language, numFlashcards, Authorization(user)));
      match response {
        case Generated(cards) =>
          flashcards := cards;
          received := Some(cards);
        case Failed =>
          error := UploadFailedMessage;
          received := None;
      }
      uploading := false;
    }

    /** `handleDownload`: no file without cards, otherwise the cards as
        `flashcards.json`. */
    method HandleDownload() returns (download: Option<Download>)
      ensures download.None? <==> |flashcards| == 0
      ensures download.Some? ==> download.value == Download(DownloadName, flashcards)
    {
      if |flashcards| == 0 {
        return None;
      }
      return Some(Download(DownloadName, flashcards));
    }
  }
}
