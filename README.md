# Document-management server: access rules, listing query builder and download metadata

This project models the decisions the document-management server makes in
process, around its PostgreSQL queries, and proves properties of them in
Dafny. Database results are inputs: the category subtree the recursive
query returns, the document row and the version row.

- **Document listing** (`getDocuments`). The handler builds its WHERE clauses
  and a parallel parameter list with a running `$n` counter. `PlanListing` and
  its step methods `AddStatusFilter`, `AddSearchFilter` and
  `AddVisibilityFilter` model this builder. Each clause is a `Clause` value
  whose SQL text is `ClauseSql`. `Meaning` binds a clause's `$k` against the
  parameter list to give the filter it expresses. The main result is
  `Describes`: clause i expresses the i-th requested filter (category subtree,
  status, `%search%`, visibility, in that order), and the placeholders in
  clause order are exactly `$1 … $n` for the n parameters. The LIMIT and
  OFFSET placeholders are `$(n+1)` and `$(n+2)`. They bind the limit and the
  offset, which are appended after the filter parameters. The count query
  gets only the filter parameters. An empty category subtree gives an empty
  page, and no query plan is built.
- **Pagination.** `page` defaults to 1 and `limit` to 10. The offset is
  `(page-1)*limit`.
- **Reading one document** (`getDocumentById`). A missing row gives 404 before
  any access check. Otherwise the request is refused when there is no caller
  and the document is not public, or when the caller is Staff and the
  document is admin-only.
- **Creating a document.** A falsy category becomes null, a falsy status
  becomes `draft`, and a falsy visibility becomes `staff`.
- **Versions.** The model covers the upload checks in their source order, the
  next version number, and the `UPLOAD (v<n>)` and `DOWNLOAD (v<n>)` audit
  actions. It also covers the role × visibility × status rules for listing and
  downloading versions, the extension-to-MIME table, and the download file
  name.
- **Role gate** (`role(allowedRoles)`). It answers 403 when there is no caller
  or the caller's role is not allowed, and passes the request on otherwise.

Roles, visibilities and statuses are strings, as stored. Where a handler
only asks whether a text value is truthy (the listing's query values, a
body's `status` and `visibility`), absent and empty are both the empty
string here. `page` and `limit` are `Option`s, because they take their
defaults only when absent. A body's `category_id` is an `Option` too; absent,
null and empty are all `None`, and `None` and `0` are both stored as null.
A body's `title` and `description` are passed through untested, so they are
`Option`s: an absent one is stored as null, an empty one as `''`. A caller's
`id` is an `Option`: the placeholder user `{ role: "Public" }` that
authentication sets has none. A document created by such a caller has a
null `created_by`, and the audit entry of its download has a null `user_id`.

Three consequences of the route wiring and of the listing's query options
show up in lemmas. They are not changes to the model:

- `GET /documents` runs the authentication middleware first. That middleware
  always sets a user, with role `Public` when no valid token is sent. So the
  "no user" branch of the listing's visibility logic is unreachable through
  that route. `PublicRoleUserIsNotRestricted` shows that a `Public`-role user
  gets no visibility clause at all.
- `GET /documents/:id` has no authentication middleware. There, the user is
  always absent and only public documents are readable.
- An explicit `visibility` in the listing's query replaces the caller's
  restriction. `ExplicitVisibilityListsWhatCannotBeRead` shows a Staff
  caller listing admin documents that `getDocumentById` would refuse them.

## Model

| member | source | states |
|---|---|---|
| DocumentController.PlanListing | src/controllers/documentController.js:24-108 | Empty page (and no queries) iff a category was asked for and its subtree is empty. Otherwise the clauses express exactly the requested filters in order category, status, search, visibility, with placeholders `$1..$n` naming the n count-query parameters in order. The WHERE text is empty iff there are no clauses. LIMIT is `$(n+1)` and OFFSET `$(n+2)`. The data parameters are the count parameters followed by limit and offset. |
| DocumentController.AddStatusFilter | src/controllers/documentController.js:57-62 | Keeps the clause/parameter alignment, adding a status filter iff a status was given, and keeps the counter one past the parameter count |
| DocumentController.AddSearchFilter | src/controllers/documentController.js:64-69 | Keeps the alignment, adding a title filter bound to `%term%` iff a search term was given; counter one past the parameter count |
| DocumentController.AddVisibilityFilter | src/controllers/documentController.js:71-82 | Keeps the alignment, adding the visibility filter the request and caller call for (explicit value bound to a placeholder, or a literal clause); counter one past the parameter count |
| DocumentController.PushBound | src/controllers/documentController.js:49-51 | Pushing a clause numbered `$(n+1)` with its parameter onto n aligned parameters keeps every earlier clause's meaning and the `$1..$n+1` numbering |
| DocumentController.PushLiteral | src/controllers/documentController.js:78-80 | Pushing a literal visibility clause without a parameter keeps the alignment |
| DocumentController.DescribesMeans | src/controllers/documentController.js:29-75 | Under the alignment, every clause's `$k` names an existing parameter `k-1` of the right kind and means its filter, and the k-th placeholder in clause order is `$k` |
| DocumentController.BindsStable | src/controllers/documentController.js:107 | Appending parameters (such as limit and offset) does not change what the filter clauses mean |
| DocumentController.PagingPlaceholdersBind | src/controllers/documentController.js:104-107 | The LIMIT and OFFSET placeholders name the limit and the offset, which sit after all filter parameters; the first n data parameters are the count parameters |
| DocumentController.PlaceholderTextNamesSlot | src/controllers/documentController.js:49-73 | A clause's SQL text contains its placeholder as its only `$`, followed by the decimal digits of its number, which read back as that number |
| DocumentController.ClauseSql | src/controllers/documentController.js:49-80 | A clause's text contains a `$` iff the clause has a placeholder; the two literal visibility clauses have none |
| DocumentController.PagingSql | src/controllers/documentController.js:104 | The tail is `LIMIT $`, the limit slot's digits, ` OFFSET $`, the offset slot's digits, and each group of digits reads back as its slot |
| DocumentController.WhereSql | src/controllers/documentController.js:84 | The WHERE string is empty iff there are no clauses, and otherwise starts with `WHERE ` |
| DocumentController.WhereSqlSnoc | src/controllers/documentController.js:84 | The clause texts follow `WHERE ` in the order they were pushed: one clause stands alone, and each further clause adds ` AND ` and its own text at the end |
| DocumentController.VisibilityFilter | src/controllers/documentController.js:72-82 | An explicit visibility admits exactly that visibility, for any caller; otherwise there is no restriction iff a user is present whose role is not Staff, no user admits exactly `public`, and Staff admits exactly `public` and `staff` |
| DocumentController.PublicRoleUserIsNotRestricted | src/controllers/documentController.js:76-82 | A user whose role is `Public` gets no visibility clause |
| DocumentController.Offset | src/controllers/documentController.js:27 | Page 1 starts at row 0, and a page from 1 up with a non-negative limit never has a negative offset |
| DocumentController.DefaultPagination | src/controllers/documentController.js:26-27 | Without page and limit the listing asks for page 1 of 10 rows at offset 0 |
| DocumentController.PagesAreContiguous | src/controllers/documentController.js:27 | Page p+1 starts exactly `limit` rows after page p |
| DocumentController.PagesDoNotOverlap | src/controllers/documentController.js:27 | For a non-negative limit, a later page starts no earlier than the end of an earlier page |
| DocumentController.GetDocumentById | src/controllers/documentController.js:138-146 | 404 iff no row; 403 iff (no user and not public) or (Staff and admin); otherwise the row itself |
| DocumentController.ListedDocumentsAreReadable | src/controllers/documentController.js:143-144 | A document the listing's visibility rule admits for a caller is one `getDocumentById` lets that caller read |
| DocumentController.AnonymousReadsExactlyWhatIsListed | src/controllers/documentController.js:143 | With no user, a document is readable by id iff the listing would show it |
| DocumentController.ExplicitVisibilityListsWhatCannotBeRead | src/controllers/documentController.js:72-75 | With `visibility=admin` in the query, a Staff caller's listing admits admin documents, while `getDocumentById` refuses that caller each of them |
| DocumentController.NewDocumentFor | src/controllers/documentController.js:7-14 | Title and description are stored as sent (null when absent); a falsy category (absent, null, empty or 0) is stored as null, a falsy status as `draft`, a falsy visibility as `staff`; given values are kept; `created_by` is the caller's id, null when the caller has none |
| DocumentController.DefaultsAreIdempotent | src/controllers/documentController.js:14 | Applying the defaults to an already defaulted document changes nothing |
| RoleMiddleware.Gate | src/middlewares/roleMiddleware.js:3-8 | 403 iff no user or the role is not allowed; `next` iff a user with an allowed role; exactly one of the two |
| RoleMiddleware.DefaultGateForbidsAll | src/middlewares/roleMiddleware.js:2 | With the default empty role list every request is forbidden |
| RoleMiddleware.GateMonotone | src/middlewares/roleMiddleware.js:4 | Allowing more roles never forbids a request that passed |
| RoleMiddleware.GateDependsOnRoleOnly | src/middlewares/roleMiddleware.js:4 | The decision depends only on the caller's role and the set of allowed roles |
| VersionController.UploadVersion | src/controllers/versionController.js:10-59 | Public → 403, then no file → 400, then no document → 404, then Staff on admin → 403; otherwise the inserted row is numbered current+1 and carries the file's path, type and size and the uploader's id, and the audit action is exactly `UPLOAD (v<that number>)` |
| VersionController.ActionText | src/controllers/versionController.js:57 | The `<verb> (v<n>)` action text reads back as exactly n, for every integer n |
| VersionController.StaffIsKeptOutOfAdminDocuments | src/controllers/versionController.js:32-34 | A Staff caller can neither upload to, list nor download versions of an admin document |
| VersionController.GetVersions | src/controllers/versionController.js:84-99 | 404 iff no document; Public allowed iff public and published; Staff refused iff admin; every other role allowed |
| VersionController.DownloadPermission | src/controllers/versionController.js:139-155 | 404 iff no row; an absent user counts as Public; Public allowed iff public and published; Staff refused iff admin; every other role allowed |
| VersionController.EffectiveRole | src/controllers/versionController.js:144 | The rules apply role Public iff there is no user or the user's role is Public |
| VersionController.DownloadAgreesWithListing | src/controllers/versionController.js:144-155 | For a present user, downloading is allowed iff listing versions of that document is |
| VersionController.AnonymousDownloadIsPublic | src/controllers/versionController.js:144 | No user is treated exactly as a user with role Public |
| VersionController.StatusMattersOnlyForPublic | src/controllers/versionController.js:147-155 | For every role except Public, changing the document's status never changes the download decision |
| VersionController.SelectContentType | src/controllers/versionController.js:169-178 | The Content-Type is the table entry for the lower-cased extension, or `application/octet-stream` for a null, empty or unknown one |
| VersionController.MimeTypeOf | src/controllers/versionController.js:171-178 | The Content-Type is one of the table's types or `application/octet-stream`, and the default exactly when the lower-cased extension is not in the table |
| VersionController.MimeTypeIgnoresCase | src/controllers/versionController.js:169 | Two spellings of an extension that differ only in the case of their letters (`.PDF`, `.Pdf`, `.pdf`) get the same Content-Type |
| VersionController.MimeTypeUpperCaseExamples | src/controllers/versionController.js:169-177 | `.PDF` gives `application/pdf` and `.JpEg` gives `image/jpeg` |
| VersionController.MimeTypeDefaultExamples | src/controllers/versionController.js:169-171 | `.txt`, an empty type and a null type give `application/octet-stream` |
| VersionController.DownloadName | src/controllers/versionController.js:184 | The name is `document_v`, then the version number in decimal (which reads back as that number), then the file type exactly as stored, not lower-cased (`null` for a null type) |
| VersionController.FileTypeText | src/controllers/versionController.js:184 | A stored file type appears as stored; the text is `null` iff the type is null or is the string `null` itself |
| VersionController.DownloadVersion | src/controllers/versionController.js:139-187 | 404 iff no row, 403 iff the permission refuses; otherwise the stored file, sent with the table's Content-Type and the download name, with a `DOWNLOAD (v<n>)` audit entry carrying the user's id (null when the user has none) iff a user is present |
| Text.NatToDecimal | src/controllers/documentController.js:49 | A placeholder number renders as a non-empty string of decimal digits without a leading zero |
| Text.DecimalRoundTrip | src/controllers/documentController.js:104 | Reading a rendered number back gives the number |
| Text.DecimalInjective | src/controllers/documentController.js:104 | Distinct placeholder numbers render as distinct text |
| Text.IntRoundTrip | src/controllers/versionController.js:162 | Any integer rendered in a template literal reads back as itself |
| Text.ToLower | src/controllers/versionController.js:169 | Lower-casing keeps the length, turns each upper-case ASCII letter into its lower-case letter and keeps every other character |
| Text.ToLowerIdempotent | src/controllers/versionController.js:169 | Lower-casing twice is lower-casing once |
| Text.ToLowerIgnoresCase | src/controllers/versionController.js:169 | Strings that differ only in the case of their ASCII letters lower-case to the same string |
| Text.JoinSnoc | src/controllers/documentController.js:84 | Joining one more clause adds ` AND ` and that clause at the end |

## Left out

- SQL execution: the recursive category query, the count, the data query with its joins and ordering, and every INSERT, UPDATE and DELETE. Their results are inputs, and the model does not compute `total` or the returned rows.
- The 500 answers from the `catch` blocks. They arise only from database or I/O failures, which the model does not have.
- `updateDocumentStatus`, `updateDocument` and `deleteDocument`: each is a single SQL statement with no in-process decision to model. The two updates answer 404 when no row was updated. `deleteDocument` always answers "Deleted successfully", even when no row was deleted.
- The uploaded version does not update the document's `current_version_num` in this handler, and neither does the model. If the database does it elsewhere, that code is not part of this model.
- JavaScript coercion of `page` and `limit` from query strings: they are integers here, and `Number(page)` in the reply is `page`. Document, category and version ids are opaque values (UUID strings in the API) that the handlers only pass through; they are modelled as `int`, which loses no decision. A body's `category_id` of `0` becomes null only as the number `0`: the string `"0"` is truthy and is stored as sent, which the model, with integer ids, does not distinguish.
- Query-string values given more than once (arrays): every query value is a single string.
- `toLowerCase` is modelled for ASCII letters only. Every extension in the table is ASCII, so only exotic Unicode case mappings could change a match.
- The ILIKE matching itself. The model records the `%term%` pattern bound to the title clause. `%` and `_` inside the term are not escaped by the handler, and the model does not interpret them.
- `path.extname` of the uploaded file's name: the extension is an input of the upload.
- Sending the file (`res.download`), setting headers, and the `headersSent` guard: HTTP I/O.
- The audit logger's database write: the model states the entry handed to it, not its persistence.
- `jwt.verify` in the authentication middleware: the caller's role is an input.
- Request paths where `req.user` is missing in `createDocument`, `uploadVersion` or `getVersions`. There the handler would throw. Through the routes, authentication always sets a user, so these handlers take a `User`, not an `Option`.
