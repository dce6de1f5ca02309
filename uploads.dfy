/**
 * The decisions of write_upload_file and do_GET_file: the upload paths, the
 * allowed MIME types, and which kind of response a static file gets. The
 * multipart form, the file system and libmagic are inputs.
 */
module Uploads {
  import opened Wrappers
  import opened PyValues

  const AllowedMimeTypes: seq<string> := ["image/jpeg", "image/png"]
  const ImageTypes: seq<string> := ["image/png", "image/x-icon"]
  const TextTypes: seq<string> := ["text/plain", "text/xml"]

  const NoFileMessage := "No file was uploaded."

  /** The message for an uploaded file whose detected MIME type is not allowed. */
  function MimeNotAllowedMessage(mimeType: string, filename: string): string {
    "The mime type \"" + mimeType + "\" of uploaded file \"" + filename + "\" is not allowed."
  }

  /** `'%s/%s/%s' % (root_data_path, 'upload', filename)`. */
  function UploadPath(rootDataPath: string, filename: string): (p: string)
    ensures |p| == |rootDataPath| + 8 + |filename|
    ensures p[..|rootDataPath|] == rootDataPath && p[|rootDataPath|..|rootDataPath| + 8] == "/upload/"
    ensures p[|rootDataPath| + 8..] == filename
  {
    rootDataPath + "/upload/" + filename
  }

  /** `'%s%s/%s' % (root_data_path_web, 'upload', filename)`: no separator before `upload`. */
  function UploadPathWeb(rootDataPathWeb: string, filename: string): (p: string)
    ensures |p| == |rootDataPathWeb| + 7 + |filename|
    ensures p[..|rootDataPathWeb|] == rootDataPathWeb && p[|rootDataPathWeb|..|rootDataPathWeb| + 7] == "upload/"
    ensures p[|rootDataPathWeb| + 7..] == filename
  {
    rootDataPathWeb + "upload/" + filename
  }

  /** The dictionary write_upload_file returns. */
  datatype UploadResult =
    | Rejected(message: string)                                        // 'error': True
    | Accepted(uploadPath: string, uploadPathWeb: string, mimeType: string) // 'error': False

  /** What write_upload_file returns, and where it wrote the uploaded bytes, if anywhere. */
  datatype Upload = Upload(result: UploadResult, stored: Option<string>)

  /**
   * write_upload_file for an uploaded file named `filename` whose stored
   * bytes libmagic reports as `detectedMime`.
   */
  function WriteUploadFile(filename: string, rootDataPath: string, rootDataPathWeb: string,
                           detectedMime: string): (u: Upload)
    ensures filename == "" <==> u.result == Rejected(NoFileMessage) && u.stored.None?
    ensures filename != "" ==> u.stored == Some(UploadPath(rootDataPath, filename))
    ensures filename != "" && detectedMime !in AllowedMimeTypes ==>
      u.result == Rejected(MimeNotAllowedMessage(detectedMime, filename))
    ensures u.result.Accepted? <==> filename != "" && detectedMime in AllowedMimeTypes
    ensures u.result.Accepted? ==>
      u.result == Accepted(UploadPath(rootDataPath, filename), UploadPathWeb(rootDataPathWeb, filename), detectedMime)
  {
    if filename == "" then Upload(Rejected(NoFileMessage), None)
    else
      var uploadPath := UploadPath(rootDataPath, filename);
      var uploadPathWeb := UploadPathWeb(rootDataPathWeb, filename);
      if detectedMime !in AllowedMimeTypes then
        Upload(Rejected(MimeNotAllowedMessage(detectedMime, filename)), Some(uploadPath))
      else
        Upload(Accepted(uploadPath, uploadPathWeb, detectedMime), Some(uploadPath))
  }

  /** `filename` is what follows `<root>/upload/` in an upload path; the web path ends the same way. */
  lemma UploadPathsRecoverFilename(rootDataPath: string, rootDataPathWeb: string, filename: string)
    ensures UploadPath(rootDataPath, filename)[|rootDataPath| + 8..] == filename
    ensures UploadPathWeb(rootDataPathWeb, filename)[|rootDataPathWeb| + 7..] == filename
    ensures UploadPath(rootDataPath, filename)[|rootDataPath|..]
         == "/" + UploadPathWeb(rootDataPathWeb, filename)[|rootDataPathWeb|..]
  {
    assert UploadPath(rootDataPath, filename) == (rootDataPath + "/upload/") + filename;
    assert UploadPathWeb(rootDataPathWeb, filename) == (rootDataPathWeb + "upload/") + filename;
  }

  /** Two accepted uploads under the same roots land on the same paths only for the same file name. */
  lemma AcceptedPathsInjective(rootDataPath: string, rootDataPathWeb: string,
                               f1: string, f2: string, m1: string, m2: string)
    requires WriteUploadFile(f1, rootDataPath, rootDataPathWeb, m1).result.Accepted?
    requires WriteUploadFile(f2, rootDataPath, rootDataPathWeb, m2).result.Accepted?
    ensures (WriteUploadFile(f1, rootDataPath, rootDataPathWeb, m1).result.uploadPath
             == WriteUploadFile(f2, rootDataPath, rootDataPathWeb, m2).result.uploadPath) <==> f1 == f2
  {
    UploadPathsRecoverFilename(rootDataPath, rootDataPathWeb, f1);
    UploadPathsRecoverFilename(rootDataPath, rootDataPathWeb, f2);
  }

  /** The response do_GET_file chooses for a static file. */
  datatype FileResponse =
    | Picture(picturePath: string, contentType: string)             // respond_picture_raw, returns True
    | TextFile(folder: string, file: Option<string>, contentType: string) // respond_file, returns True
    | NoSuchFile                                                    // returns False
    | UnknownType(mimeType: string)                                 // returns False

  /** The value do_GET_file returns. */
  predicate Served(r: FileResponse) {
    r.Picture? || r.TextFile?
  }

  /** `file_template_path`: the static files live under `<root_project_path>/mlks/http`. */
  function FileTemplatePath(rootProjectPath: string): string {
    rootProjectPath + "/mlks/http"
  }

  /** The file do_GET_file looks at: `<file_template_path>/<folder>/<argument>`, `None` spelt out. */
  function StaticFilePath(rootProjectPath: string, folder: string, argument: Option<string>): (p: string)
    ensures var dir := FileTemplatePath(rootProjectPath) + "/" + folder + "/";
      && |p| == |dir| + |FormatOptional(argument)|
      && p[..|dir|] == dir && p[|dir|..] == FormatOptional(argument)
    ensures argument.None? ==> p[|p| - 4..] == "None"
  {
    FileTemplatePath(rootProjectPath) + "/" + folder + "/" + FormatOptional(argument)
  }

  /**
   * The file do_GET_favicon looks for: `favicon.ico` for `/favicon.ico`, and
   * a file named `None` when the route captured no argument.
   */
  lemma FaviconFile(rootProjectPath: string, argument: Option<string>)
    requires argument == Some("favicon.ico") || argument.None?
    ensures argument.Some? ==>
      StaticFilePath(rootProjectPath, "favicon", argument) == rootProjectPath + "/mlks/http/favicon/favicon.ico"
    ensures argument.None? ==>
      StaticFilePath(rootProjectPath, "favicon", argument) == rootProjectPath + "/mlks/http/favicon/None"
  {
    var dir := FileTemplatePath(rootProjectPath) + "/" + "favicon" + "/";
    assert dir == rootProjectPath + "/mlks/http/favicon/";
    assert StaticFilePath(rootProjectPath, "favicon", argument) == dir + FormatOptional(argument);
  }

  /**
   * do_GET_file(folder, argument), with `isFile` for os.path.isfile and
   * `mimeOf` for libmagic's answer on a path.
   */
  function DoGetFile(rootProjectPath: string, folder: string, argument: Option<string>,
                     isFile: string -> bool, mimeOf: string -> string): (r: FileResponse)
    ensures var path := StaticFilePath(rootProjectPath, folder, argument);
            && (r.NoSuchFile? <==> !isFile(path))
            && (Served(r) <==> isFile(path) && (mimeOf(path) in ImageTypes || mimeOf(path) in TextTypes))
            && (r.Picture? ==> r.contentType == mimeOf(path) && r.contentType in ImageTypes
                               && r.picturePath == folder + "/" + FormatOptional(argument))
            && (r.TextFile? ==> r.contentType == mimeOf(path) + "; charset=utf-8"
                                && mimeOf(path) in TextTypes && r.folder == folder && r.file == argument)
            && (r.UnknownType? ==> r.mimeType == mimeOf(path))
  {
    var path := StaticFilePath(rootProjectPath, folder, argument);
    if !isFile(path) then NoSuchFile
    else
      var mimeType := mimeOf(path);
      if mimeType in ImageTypes then Picture(folder + "/" + FormatOptional(argument), mimeType)
      else if mimeType in TextTypes then TextFile(folder, argument, mimeType + "; charset=utf-8")
      else UnknownType(mimeType)
  }

  /** The image and text tables do not overlap, so the order of the two tests does not matter. */
  lemma FileKindsDisjoint()
    ensures forall t :: t in ImageTypes ==> t !in TextTypes
  {
  }
}
