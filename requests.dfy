/**
 * What the handlers see of a request once authentication has run: the caller
 * (`req.user`, absent when no middleware set it) with the role taken from the
 * token, and the role, visibility and status words the handlers compare
 * against. Roles, visibilities and statuses stay strings, as in the database:
 * a row may hold any value, and the rules below only single out these.
 */
module Requests {
  import opened Wrappers

  /**
   * The caller. `id` is absent for the placeholder `{ role: "Public" }` that
   * authentication sets when no valid token is sent; reading it then gives
   * null, which is what gets stored.
   */
  datatype User = User(id: Option<int>, role: string)

  const RolePublic: string := "Public"
  const RoleStaff: string := "Staff"

  const VisibilityPublic: string := "public"
  const VisibilityStaff: string := "staff"
  const VisibilityAdmin: string := "admin"

  const StatusDraft: string := "draft"
  const StatusPublished: string := "published"

  /** The three ways a read handler can end once its row has been fetched. */
  datatype Reply<+T> = NotFound | Forbidden | Found(value: T)
}
