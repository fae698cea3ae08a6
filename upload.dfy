/**
 * The resume-upload page: a file is accepted only when it is a PDF or Word
 * document of at most 5 MiB; uploading needs a chosen file and the signed-in
 * user's e-mail, and the upload endpoint's answer is an input.
 */
module ResumeUpload {
  import opened Wrappers
  import opened JsText

  /** The `File` fields the page reads. */
  datatype FileInfo = FileInfo(name: string, mimeType: string, size: nat)

  const PdfType := "application/pdf"
  const DocType := "application/msword"
  /** `vnd.openxmlformats-officedocument.wordprocessingml.document`, written in three pieces. */
  const DocxSubtype := "vnd.openxml" + "formats-officedocument" + ".wordprocessingml.document"
  const DocxType := "application/" + DocxSubtype
  const ValidTypes: seq<string> := [PdfType, DocType, DocxType]

  /** 5 MiB. */
  const MaxFileSize: nat := 5 * 1024 * 1024

  /** What `validateAndSetFile` concludes; the failures are the two error toasts. */
  datatype Verdict = Accepted | WrongType | TooLarge

  /** The type check comes first, then the size bound (inclusive). */
  function Validate(f: FileInfo): (v: Verdict)
    ensures v == WrongType <==> f.mimeType !in ValidTypes
    ensures v == TooLarge <==> f.mimeType in ValidTypes && f.size > MaxFileSize
    ensures v == Accepted <==> f.mimeType in ValidTypes && f.size <= MaxFileSize
  {
    if f.mimeType !in ValidTypes then WrongType
    else if f.size > MaxFileSize then TooLarge
    else Accepted
  }

  /** The size bound is inclusive: exactly 5 MiB passes, one byte more does not. */
  lemma SizeBoundary(name: string)
    ensures Validate(FileInfo(name, PdfType, 5242880)) == Accepted
    ensures Validate(FileInfo(name, PdfType, 5242881)) == TooLarge
  {
  }

  /** `file.type.split('/')[1].toUpperCase()`; evaluating it throws (no label) when the type has no `/`. */
  function TypeLabel(mimeType: string): (shown: Option<string>)
    ensures shown.Some? <==> '/' in mimeType
  {
    var parts := Split(mimeType, '/');
    if '/' in mimeType then SplitWithSeparator(mimeType, '/'); Some(ToUpper(parts[1]))
    else SplitWithoutSeparator(mimeType, '/'); None
  }

  /** The label of `a/b` is `b` in upper case. */
  lemma TypeLabelOfPieces(a: string, b: string)
    requires '/' !in a && '/' !in b
    ensures TypeLabel(a + "/" + b) == Some(ToUpper(b))
  {
    SplitPieces(a, b);
    assert (a + "/" + b)[|a|] == '/';
  }

  lemma UpperPdf()
    ensures ToUpper("pdf") == "PDF"
  {
    var u := ToUpper("pdf");
    assert u[0] == 'P' && u[1] == 'D' && u[2] == 'F';
  }

  lemma UpperMsWord()
    ensures ToUpper("msword") == "MSWORD"
  {
    var u := ToUpper("msword");
    assert u[0] == 'M' && u[1] == 'S' && u[2] == 'W' && u[3] == 'O' && u[4] == 'R' && u[5] == 'D';
  }

  lemma PdfLabel(m: string)
    requires m == PdfType
    ensures TypeLabel(m) == Some(ToUpper("pdf"))
  {
    assert m == "application" + "/" + "pdf";
    TypeLabelOfPieces("application", "pdf");
  }

  lemma MsWordLabel(m: string)
    requires m == DocType
    ensures TypeLabel(m) == Some(ToUpper("msword"))
  {
    assert m == "application" + "/" + "msword";
    TypeLabelOfPieces("application", "msword");
  }

  lemma DocxLabel(m: string)
    requires m == DocxType
    ensures TypeLabel(m) == Some(ToUpper(DocxSubtype))
  {
    assert '/' !in "vnd.openxml" && '/' !in "formats-officedocument" && '/' !in ".wordprocessingml.document";
    assert m == "application" + "/" + DocxSubtype;
    TypeLabelOfPieces("application", DocxSubtype);
  }

  /**
   * Every accepted file has a label: PDF, MSWORD, or the upper-cased OOXML
   * subtype for a DOCX file.
   */
  lemma AcceptedTypeLabels(f: FileInfo)
    requires Validate(f) == Accepted
    ensures TypeLabel(f.mimeType).Some?
    ensures f.mimeType == PdfType ==> TypeLabel(f.mimeType) == Some("PDF")
    ensures f.mimeType == DocType ==> TypeLabel(f.mimeType) == Some("MSWORD")
    ensures f.mimeType == DocxType ==> TypeLabel(f.mimeType) == Some(ToUpper(DocxSubtype))
  {
    if f.mimeType == PdfType {
      PdfLabel(f.mimeType);
      UpperPdf();
    } else if f.mimeType == DocType {
      MsWordLabel(f.mimeType);
      UpperMsWord();
    } else {
      DocxLabel(f.mimeType);
    }
  }

  /** A type made of two slash-free pieces splits into exactly those pieces. */
  lemma SplitPieces(a: string, b: string)
    requires '/' !in a && '/' !in b
    ensures Split(a + "/" + b, '/') == [a, b]
  {
    SplitAfterPiece(a, b, '/');
    SplitWithoutSeparator(b, '/');
  }

  /** The request body of an upload. */
  datatype UploadRequest = UploadRequest(file: FileInfo, userEmail: string)

  /** The upload endpoint's answer: a thrown network error, or a response with its `ok` flag. */
  datatype UploadReply = UploadThrown | UploadResponse(ok: bool)

  /** The page's state. */
  class UploadPage {
    var file: Option<FileInfo>
    var uploading: bool
    var uploadSuccess: bool

    /** Only an accepted file is ever held. */
    ghost predicate Valid()
      reads this
    {
      file.Some? ==> Validate(file.value) == Accepted
    }

    constructor ()
      ensures Valid()
      ensures file == None && !uploading && !uploadSuccess
    {
      file, uploading, uploadSuccess := None, false, false;
    }

    /** `validateAndSetFile`: a rejected file changes nothing; an accepted one replaces the file and clears the success flag. */
    method ValidateAndSetFile(f: FileInfo) returns (v: Verdict)
      requires Valid()
      modifies this
      ensures Valid()
      ensures v == Validate(f)
      ensures v == Accepted ==> file == Some(f) && !uploadSuccess && uploading == old(uploading)
      ensures v != Accepted ==> file == old(file) && uploadSuccess == old(uploadSuccess) && uploading == old(uploading)
    {
      if f.mimeType !in ValidTypes {
        return WrongType;
      }
      if f.size > MaxFileSize {
        return TooLarge;
      }
      file := Some(f);
      uploadSuccess := false;
      v := Accepted;
    }

    /** `handleDrop`: only the first dropped file is considered, and only when there is one. */
    method HandleDrop(files: seq<FileInfo>) returns (v: Option<Verdict>)
      requires Valid()
      modifies this
      ensures Valid()
      ensures files == [] ==> v == None && file == old(file) && uploadSuccess == old(uploadSuccess)
      ensures files != [] ==> v == Some(Validate(files[0]))
      ensures files != [] && Validate(files[0]) == Accepted ==> file == Some(files[0]) && !uploadSuccess
      ensures files != [] && Validate(files[0]) != Accepted ==>
        file == old(file) && uploadSuccess == old(uploadSuccess)
      ensures uploading == old(uploading)
    {
      v := None;
      if |files| > 0 {
        var verdict := ValidateAndSetFile(files[0]);
        v := Some(verdict);
      }
    }

    /** `handleFileChange`: the same first-file rule for the file picker. */
    method HandleFileChange(files: seq<FileInfo>) returns (v: Option<Verdict>)
      requires Valid()
      modifies this
      ensures Valid()
      ensures files == [] ==> v == None && file == old(file) && uploadSuccess == old(uploadSuccess)
      ensures files != [] ==> v == Some(Validate(files[0]))
      ensures files != [] && Validate(files[0]) == Accepted ==> file == Some(files[0]) && !uploadSuccess
      ensures files != [] && Validate(files[0]) != Accepted ==>
        file == old(file) && uploadSuccess == old(uploadSuccess)
      ensures uploading == old(uploading)
    {
      v := None;
      if |files| > 0 {
        var verdict := ValidateAndSetFile(files[0]);
        v := Some(verdict);
      }
    }

    /**
     * The part of `handleUpload` before the request is awaited.  Without a file
     * nothing happens; without an e-mail nothing is sent and `uploading` ends
     * false; otherwise the request is sent and `uploading` stays true.
     */
    method BeginUpload(userEmail: string) returns (request: Option<UploadRequest>)
      requires Valid()
      modifies this
      ensures Valid()
      ensures file == old(file) && uploadSuccess == old(uploadSuccess)
      ensures old(file).None? ==> request.None? && uploading == old(uploading)
      ensures old(file).Some? && userEmail == "" ==> request.None? && !uploading
      ensures old(file).Some? && userEmail != "" ==>
        request == Some(UploadRequest(old(file).value, userEmail)) && uploading
    {
      if file.None? {
        return None;
      }
      uploading := true;
      if userEmail == "" {
        uploading := false;
        return None;
      }
      request := Some(UploadRequest(file.value, userEmail));
    }

    /** The awaited part: success only on an ok response; `uploading` is cleared in every case. */
    method FinishUpload(reply: UploadReply)
      requires Valid()
      modifies this
      ensures Valid()
      ensures !uploading && file == old(file)
      ensures uploadSuccess == (if reply == UploadResponse(true) then true else old(uploadSuccess))
    {
      if reply == UploadResponse(true) {
        uploadSuccess := true;
      }
      uploading := false;
    }

    /**
     * `handleUpload` from start to finish, where `userEmail` is the value of
     * `user?.email || ""`: after every completed attempt `uploading` is false.
     */
    method HandleUpload(userEmail: string, reply: UploadReply) returns (request: Option<UploadRequest>)
      requires Valid()
      modifies this
      ensures Valid()
      ensures file == old(file)
      ensures old(file).None? ==> request.None? && uploading == old(uploading) && uploadSuccess == old(uploadSuccess)
      ensures old(file).Some? ==> !uploading
      ensures old(file).Some? && userEmail == "" ==> request.None? && uploadSuccess == old(uploadSuccess)
      ensures old(file).Some? && userEmail != "" ==>
        && request == Some(UploadRequest(old(file).value, userEmail))
        && uploadSuccess == (if reply == UploadResponse(true) then true else old(uploadSuccess))
    {
      request := BeginUpload(userEmail);
      if request.Some? {
        FinishUpload(reply);
      }
    }

    /** `removeFile`: clears the file and the success flag. */
    method RemoveFile()
      requires Valid()
      modifies this
      ensures Valid()
      ensures file.None? && !uploadSuccess && uploading == old(uploading)
    {
      file := None;
      uploadSuccess := false;
    }
  }
}
