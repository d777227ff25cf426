/**
 * The in-process logic of the version handlers: who may upload, list and
 * download versions of a document, which number a new version gets, what
 * audit entries are written, and the Content-Type and file name a download
 * is sent with. Rows fetched from the database are inputs.
 */
module VersionController {
  import opened Wrappers
  import opened Text
  import opened Requests

  /** An audit-log entry as handed to the audit logger. */
  datatype AuditEntry = AuditEntry(userId: Option<int>, documentId: int, action: string)

  /** The action text of an audit entry: `<verb> (v<n>)`, which names exactly version n. */
  function ActionText(verb: string, versionNumber: int): (action: string)
    ensures ActionVersion(verb, action) == Some(versionNumber)
  {
    var head := verb + " (v";
    var action := head + IntToDecimal(versionNumber) + ")";
    assert action[..|head|] == head;
    assert action[|head|..|action| - 1] == IntToDecimal(versionNumber);
    IntRoundTrip(versionNumber);
    action
  }

  /** Reads the version number back out of an action text for `verb`. */
  function ActionVersion(verb: string, action: string): Option<int> {
    var head := verb + " (v";
    if |action| > |head| && action[..|head|] == head && action[|action| - 1] == ')'
    then ParseInt(action[|head|..|action| - 1])
    else None
  }

  // ---------------------------------------------------------------------------
  // Upload
  // ---------------------------------------------------------------------------

  /** The uploaded file as the upload middleware describes it; `extension` is the extension of its original name. */
  datatype UploadedFile = UploadedFile(path: string, extension: string, size: int)

  /** The columns of the target document that the upload handler reads. */
  datatype UploadTarget = UploadTarget(currentVersionNum: int, visibility: string)

  /** The row inserted for a new version. */
  datatype NewVersion = NewVersion(
    documentId: int,
    versionNumber: int,
    filePath: string,
    fileType: string,
    sizeBytes: int,
    uploadedBy: Option<int>)

  datatype UploadOutcome =
    | UploadForbidden                                  // 403 "Upload not allowed"
    | FileRequired                                     // 400 "File required"
    | DocumentNotFound                                 // 404 "Document not found"
    | Uploaded(version: NewVersion, audit: AuditEntry) // 201 with the inserted row

  /**
   * The upload handler. The checks run in the order: Public role, missing
   * file, missing document, Staff on an admin document; the new version is
   * numbered one past the document's current version, and the same number
   * is written in the audit action.
   */
  function UploadVersion(user: User, documentId: int, file: Option<UploadedFile>, target: Option<UploadTarget>): (r: UploadOutcome)
    ensures user.role == RolePublic ==> r == UploadForbidden
    ensures user.role != RolePublic && file.None? ==> r == FileRequired
    ensures user.role != RolePublic && file.Some? && target.None? ==> r == DocumentNotFound
    ensures user.role != RolePublic && file.Some? && target.Some? ==>
              (r == UploadForbidden <==> user.role == RoleStaff && target.value.visibility == VisibilityAdmin)
    ensures r.Uploaded? <==>
              user.role != RolePublic && file.Some? && target.Some?
              && !(user.role == RoleStaff && target.value.visibility == VisibilityAdmin)
    ensures r.Uploaded? ==>
              && r.version.versionNumber == target.value.currentVersionNum + 1
              && r.version.documentId == documentId
              && r.version.uploadedBy == user.id
              && r.version.filePath == file.value.path
              && r.version.fileType == file.value.extension
              && r.version.sizeBytes == file.value.size
              && r.audit.userId == user.id && r.audit.documentId == documentId
              && r.audit.action == ActionText("UPLOAD", r.version.versionNumber)
  {
    if user.role == RolePublic then UploadForbidden
    else if file.None? then FileRequired
    else if target.None? then DocumentNotFound
    else if user.role == RoleStaff && target.value.visibility == VisibilityAdmin then UploadForbidden
    else
      var nextVersion := target.value.currentVersionNum + 1;
      Uploaded(
        NewVersion(documentId, nextVersion, file.value.path, file.value.extension, file.value.size, user.id),
        AuditEntry(user.id, documentId, ActionText("UPLOAD", nextVersion)))
  }

  // ---------------------------------------------------------------------------
  // Listing versions
  // ---------------------------------------------------------------------------

  /** The columns of a document that the version handlers check. */
  datatype DocumentState = DocumentState(visibility: string, status: string)

  /**
   * The version-list handler once its document row is fetched: 404 before
   * any access check; a Public caller only for a published public document;
   * a Staff caller for anything but an admin document; any other role always.
   */
  function GetVersions(user: User, doc: Option<DocumentState>): (r: Reply<()>)
    ensures r.NotFound? <==> doc.None?
    ensures doc.Some? && user.role == RolePublic ==>
              (r.Found? <==> doc.value.visibility == VisibilityPublic && doc.value.status == StatusPublished)
    ensures doc.Some? && user.role == RoleStaff ==>
              (r.Forbidden? <==> doc.value.visibility == VisibilityAdmin)
    ensures doc.Some? && user.role != RolePublic && user.role != RoleStaff ==> r.Found?
  {
    if doc.None? then NotFound
    else if user.role == RolePublic && (doc.value.visibility != VisibilityPublic || doc.value.status != StatusPublished) then Forbidden
    else if user.role == RoleStaff && doc.value.visibility == VisibilityAdmin then Forbidden
    else Found(())
  }

  // ---------------------------------------------------------------------------
  // Downloading a version
  // ---------------------------------------------------------------------------

  /** The joined version and document row the download handler fetches; `fileType` is null-able. */
  datatype VersionRow = VersionRow(
    filePath: string,
    fileType: Option<string>,
    documentId: int,
    versionNumber: int,
    visibility: string,
    status: string)

  /** The role the download rules apply: an absent caller counts as Public. */
  function EffectiveRole(user: Option<User>): (role: string)
    ensures role == RolePublic <==> user.None? || user.value.role == RolePublic
  {
    if user.Some? then user.value.role else RolePublic
  }

  /**
   * The download permission once the row is fetched: 404 before any check;
   * Public needs a published public document; Staff is refused admin
   * documents whatever their status; other roles are not restricted.
   */
  function DownloadPermission(user: Option<User>, row: Option<VersionRow>): (r: Reply<VersionRow>)
    ensures r.NotFound? <==> row.None?
    ensures r.Found? ==> r.value == row.value
    ensures row.Some? && EffectiveRole(user) == RolePublic ==>
              (r.Forbidden? <==> !(row.value.visibility == VisibilityPublic && row.value.status == StatusPublished))
    ensures row.Some? && EffectiveRole(user) == RoleStaff ==>
              (r.Forbidden? <==> row.value.visibility == VisibilityAdmin)
    ensures row.Some? && EffectiveRole(user) != RolePublic && EffectiveRole(user) != RoleStaff ==> r.Found?
  {
    if row.None? then NotFound
    else
      var userRole := EffectiveRole(user);
      if userRole == RolePublic then
        if row.value.visibility != VisibilityPublic || row.value.status != StatusPublished then Forbidden
        else Found(row.value)
      else if userRole == RoleStaff then
        if row.value.visibility == VisibilityAdmin then Forbidden else Found(row.value)
      else Found(row.value)
  }

  /** Downloading and listing versions grant the same callers, on the same document. */
  lemma DownloadAgreesWithListing(user: User, row: VersionRow)
    ensures DownloadPermission(Some(user), Some(row)).Found?
        <==> GetVersions(user, Some(DocumentState(row.visibility, row.status))).Found?
  {
  }

  /** An absent caller downloads exactly what a caller with role Public downloads. */
  lemma AnonymousDownloadIsPublic(row: Option<VersionRow>, id: Option<int>)
    ensures DownloadPermission(None, row) == DownloadPermission(Some(User(id, RolePublic)), row)
  {
  }

  /** For every role but Public, the document's status plays no part. */
  lemma StatusMattersOnlyForPublic(user: Option<User>, row: VersionRow, status: string)
    requires EffectiveRole(user) != RolePublic
    ensures DownloadPermission(user, Some(row)).Found?
        <==> DownloadPermission(user, Some(row.(status := status))).Found?
  {
  }

  /** A Staff caller cannot upload to, list or download an admin document. */
  lemma StaffIsKeptOutOfAdminDocuments(staff: User, documentId: int, file: UploadedFile, currentVersionNum: int, row: VersionRow)
    requires staff.role == RoleStaff && row.visibility == VisibilityAdmin
    ensures UploadVersion(staff, documentId, Some(file), Some(UploadTarget(currentVersionNum, row.visibility))) == UploadForbidden
    ensures GetVersions(staff, Some(DocumentState(row.visibility, row.status))) == Forbidden
    ensures DownloadPermission(Some(staff), Some(row)) == Forbidden
  {
  }

  // ---------------------------------------------------------------------------
  // Content-Type and file name of a download
  // ---------------------------------------------------------------------------

  const OctetStream: string := "application/octet-stream"

  /** The extension table of the download handler, keyed by lower-case extension. */
  const MimeTypes: map<string, string> := map[
    ".pdf" := "application/pdf",
    ".png" := "image/png",
    ".jpg" := "image/jpeg",
    ".jpeg" := "image/jpeg",
    ".doc" := "application/msword",
    ".docx" := "application/vnd.openxmlformats-officedocument.wordprocessingml.document",
    ".xlsx" := "application/vnd.openxmlformats-officedocument.spreadsheetml.sheet"
  ]

  /** The lower-cased extension; a null or empty file type gives the empty string. */
  function LowerExtension(fileType: Option<string>): string {
    if fileType.Some? && fileType.value != "" then ToLower(fileType.value) else ""
  }

  /** The MIME type for a file type: the table entry of its lower-cased extension, or the binary default. */
  function MimeTypeOf(fileType: Option<string>): (contentType: string)
    ensures contentType in MimeTypes.Values || contentType == OctetStream
    ensures contentType == OctetStream <==> LowerExtension(fileType) !in MimeTypes
  {
    var ext := LowerExtension(fileType);
    if ext in MimeTypes then MimeTypes[ext] else OctetStream
  }

  /**
   * The handler's Content-Type selection: start from the binary default and
   * let each matching test overwrite it.
   */
  method SelectContentType(fileType: Option<string>) returns (contentType: string)
    ensures contentType == MimeTypeOf(fileType)
  {
    var fileExtension := LowerExtension(fileType);

    contentType := OctetStream;

    if fileExtension == ".pdf" { contentType := "application/pdf"; }
    if fileExtension == ".png" { contentType := "image/png"; }
    if fileExtension == ".jpg" || fileExtension == ".jpeg" { contentType := "image/jpeg"; }
    if fileExtension == ".doc" { contentType := "application/msword"; }
    if fileExtension == ".docx" { contentType := "application/vnd.openxmlformats-officedocument.wordprocessingml.document"; }
    if fileExtension == ".xlsx" { contentType := "application/vnd.openxmlformats-officedocument.spreadsheetml.sheet"; }
  }

  /** Two spellings of an extension that differ only in letter case get the same type. */
  lemma MimeTypeIgnoresCase(a: string, b: string)
    requires SameIgnoringCase(a, b)
    ensures MimeTypeOf(Some(a)) == MimeTypeOf(Some(b))
  {
    ToLowerIgnoresCase(a, b);
  }

  /** An upper- or mixed-case extension gets the type of its lower-case form. */
  lemma MimeTypeUpperCaseExamples()
    ensures MimeTypeOf(Some(".PDF")) == "application/pdf"
    ensures MimeTypeOf(Some(".JpEg")) == "image/jpeg"
  {
    assert ToLower(".PDF") == ".pdf";
    assert ToLower(".JpEg") == ".jpeg";
  }

  /** An unknown, empty or null file type gets the binary default. */
  lemma MimeTypeDefaultExamples()
    ensures MimeTypeOf(Some(".txt")) == OctetStream
    ensures MimeTypeOf(Some("")) == OctetStream
    ensures MimeTypeOf(None) == OctetStream
  {
    assert ToLower(".txt") == ".txt";
  }

  /** How a null-able file type renders inside a template literal. */
  function FileTypeText(fileType: Option<string>): (text: string)
    ensures fileType.Some? ==> text == fileType.value
    ensures text == "null" <==> fileType.None? || fileType == Some("null")
  {
    if fileType.Some? then fileType.value else "null"
  }

  const DownloadPrefix: string := "document_v"

  /**
   * The download file name: the prefix, the version number, then the file
   * type exactly as stored (not lower-cased).
   */
  function DownloadName(versionNumber: int, fileType: Option<string>): (name: string)
    ensures |name| > |DownloadPrefix| + |FileTypeText(fileType)|
    ensures name[..|DownloadPrefix|] == DownloadPrefix
    ensures name[|name| - |FileTypeText(fileType)|..] == FileTypeText(fileType)
    ensures name[|DownloadPrefix|..|name| - |FileTypeText(fileType)|] == IntToDecimal(versionNumber)
    ensures ParseInt(name[|DownloadPrefix|..|name| - |FileTypeText(fileType)|]) == Some(versionNumber)
  {
    var digits := IntToDecimal(versionNumber);
    var name := DownloadPrefix + digits + FileTypeText(fileType);
    assert name[|DownloadPrefix|..|name| - |FileTypeText(fileType)|] == digits;
    IntRoundTrip(versionNumber);
    name
  }

  /** What a permitted download sends. */
  datatype Download = Download(filePath: string, contentType: string, fileName: string, audit: Option<AuditEntry>)

  datatype DownloadOutcome =
    | VersionNotFound   // 404 "Version not found"
    | DownloadRefused   // 403
    | Send(download: Download)

  /**
   * The download handler: permission first, then an audit entry only when
   * a user is present, then the Content-Type and the file name.
   */
  method DownloadVersion(user: Option<User>, row: Option<VersionRow>) returns (out: DownloadOutcome)
    ensures out.VersionNotFound? <==> row.None?
    ensures out.DownloadRefused? <==> DownloadPermission(user, row).Forbidden?
    ensures out.Send? ==>
      && DownloadPermission(user, row) == Found(row.value)
      && out.download.filePath == row.value.filePath
      && out.download.contentType == MimeTypeOf(row.value.fileType)
      && out.download.fileName == DownloadName(row.value.versionNumber, row.value.fileType)
      && (out.download.audit.Some? <==> user.Some?)
      && (user.Some? ==>
            out.download.audit == Some(AuditEntry(user.value.id, row.value.documentId,
                                                  ActionText("DOWNLOAD", row.value.versionNumber))))
  {
    var permission := DownloadPermission(user, row);
    if permission.NotFound? {
      return VersionNotFound;
    }
    if permission.Forbidden? {
      return DownloadRefused;
    }
    var version := permission.value;

    var audit: Option<AuditEntry> := None;
    if user.Some? {
      audit := Some(AuditEntry(user.value.id, version.documentId, ActionText("DOWNLOAD", version.versionNumber)));
    }

    var contentType := SelectContentType(version.fileType);
    var downloadName := DownloadName(version.versionNumber, version.fileType);
    out := Send(Download(version.filePath, contentType, downloadName, audit));
  }
}
