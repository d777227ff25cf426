/**
 * The in-process logic of the document handlers: how the listing request is
 * turned into a WHERE clause list with numbered placeholders and a parallel
 * parameter list, the pagination arithmetic, who may read a single document,
 * and the defaults a new document receives. The SQL itself is not executed
 * here: the category subtree and the fetched rows are inputs.
 */
module DocumentController {
  import opened Wrappers
  import opened Text
  import opened Requests

  // ---------------------------------------------------------------------------
  // Listing: request, pagination
  // ---------------------------------------------------------------------------

  /**
   * The query string of a listing request. A text field that is absent or
   * empty is falsy to the handler, so both are the empty string here;
   * `page` and `limit` take their defaults only when they are absent.
   */
  datatype ListRequest = ListRequest(
    search: string,
    categoryId: string,
    status: string,
    visibility: string,
    page: Option<int>,
    limit: Option<int>)

  const DefaultPage: int := 1
  const DefaultLimit: int := 10

  function PageOf(req: ListRequest): int {
    req.page.GetOr(DefaultPage)
  }

  function LimitOf(req: ListRequest): int {
    req.limit.GetOr(DefaultLimit)
  }

  /** Number of rows skipped before page `page` when pages hold `limit` rows. */
  function Offset(page: int, limit: int): (r: int)
    ensures page == 1 ==> r == 0
    ensures page >= 1 && limit >= 0 ==> r >= 0
  {
    (page - 1) * limit
  }

  /** With neither value given the listing asks for the first ten rows. */
  lemma DefaultPagination(req: ListRequest)
    requires req.page.None? && req.limit.None?
    ensures PageOf(req) == 1 && LimitOf(req) == 10
    ensures Offset(PageOf(req), LimitOf(req)) == 0
  {
  }

  /** Page `p + 1` starts exactly where page `p` ends. */
  lemma PagesAreContiguous(page: int, limit: int)
    ensures Offset(page + 1, limit) == Offset(page, limit) + limit
  {
  }

  /** For a non-negative limit, later pages never overlap earlier ones. */
  lemma PagesDoNotOverlap(p: int, q: int, limit: int)
    requires limit >= 0 && p < q
    ensures Offset(p, limit) + limit <= Offset(q, limit)
  {
  }

  // ---------------------------------------------------------------------------
  // Listing: clauses, parameters and what they mean
  // ---------------------------------------------------------------------------

  /** A value in the parameter array handed to the database driver. */
  datatype Param = Ids(ids: seq<int>) | Text(text: string) | Int(n: int)

  /**
   * One entry of `whereClauses`. The first four carry the placeholder
   * number `$slot` they were given; the last two are literal SQL.
   */
  datatype Clause =
    | CategoryIn(slot: nat)
    | StatusIs(slot: nat)
    | TitleLike(slot: nat)
    | VisibilityIs(slot: nat)
    | VisibilityIsPublic
    | VisibilityIsPublicOrStaff

  /**
   * The SQL text the handler pushes for each clause: a clause with a
   * placeholder is its text around `$` and the slot's decimal digits.
   */
  function ClauseSql(c: Clause): (sql: string)
    ensures '$' in sql <==> SlotOf(c).Some?
  {
    match c
    case VisibilityIsPublic => "d.visibility = 'public'"
    case VisibilityIsPublicOrStaff => "d.visibility IN ('public', 'staff')"
    case _ =>
      var (before, after) := TextAround(c);
      var sql := before + "$" + NatToDecimal(SlotOf(c).value) + after;
      assert sql[|before|] == '$';
      sql
  }

  /** The SQL text of a clause before and after its placeholder. */
  function TextAround(c: Clause): (around: (string, string))
    requires SlotOf(c).Some?
    ensures '$' !in around.0 && '$' !in around.1
  {
    match c
    case CategoryIn(_) => ("d.category_id = ANY(", ")")
    case StatusIs(_) => ("d.status = ", "")
    case TitleLike(_) => ("d.title ILIKE ", "")
    case VisibilityIs(_) => ("d.visibility = ", "")
  }

  /** The WHERE string shared by the count query and the data query. */
  function WhereSql(cs: seq<Clause>): (w: string)
    ensures w == "" <==> cs == []
    ensures cs != [] ==> |w| > 6 && w[..6] == "WHERE "
  {
    if cs == [] then "" else "WHERE " + Join(ClauseTexts(cs), " AND ")
  }

  /** The SQL texts of a clause list, in order. */
  function ClauseTexts(cs: seq<Clause>): seq<string> {
    seq(|cs|, i requires 0 <= i < |cs| => ClauseSql(cs[i]))
  }

  /**
   * The WHERE string lists the clause texts in the order they were pushed,
   * separated by " AND ": one clause stands alone after "WHERE ", and each
   * further clause adds " AND " and its text at the end.
   */
  lemma WhereSqlSnoc(cs: seq<Clause>, c: Clause)
    ensures cs == [] ==> WhereSql(cs + [c]) == "WHERE " + ClauseSql(c)
    ensures cs != [] ==> WhereSql(cs + [c]) == WhereSql(cs) + " AND " + ClauseSql(c)
  {
    assert ClauseTexts(cs + [c]) == ClauseTexts(cs) + [ClauseSql(c)];
    if cs != [] {
      JoinSnoc(ClauseTexts(cs), ClauseSql(c), " AND ");
    }
  }

  /** The LIMIT/OFFSET tail of the data query. */
  function PagingSql(limitSlot: nat, offsetSlot: nat): (sql: string)
    ensures var l, o := NatToDecimal(limitSlot), NatToDecimal(offsetSlot);
            && |sql| == |"LIMIT $"| + |l| + |" OFFSET $"| + |o|
            && sql[..7] == "LIMIT $" && sql[7..7 + |l|] == l
            && sql[7 + |l|..16 + |l|] == " OFFSET $" && sql[16 + |l|..] == o
            && DecimalValue(l) == limitSlot && DecimalValue(o) == offsetSlot
  {
    var l := NatToDecimal(limitSlot);
    var o := NatToDecimal(offsetSlot);
    var sql := "LIMIT $" + l + " OFFSET $" + o;
    assert sql[7..7 + |l|] == l && sql[16 + |l|..] == o;
    DecimalRoundTrip(limitSlot);
    DecimalRoundTrip(offsetSlot);
    sql
  }

  /** The placeholder a clause uses, if any. */
  function SlotOf(c: Clause): Option<nat> {
    match c
    case CategoryIn(k) => Some(k)
    case StatusIs(k) => Some(k)
    case TitleLike(k) => Some(k)
    case VisibilityIs(k) => Some(k)
    case _ => None
  }

  /** The placeholder numbers of a clause list, in clause order. */
  function Slots(cs: seq<Clause>): seq<nat> {
    if cs == [] then []
    else
      var last := cs[|cs| - 1];
      Slots(cs[..|cs| - 1]) + (if SlotOf(last).Some? then [SlotOf(last).value] else [])
  }

  /** The restriction a document must satisfy to be listed. */
  datatype Filter =
    | InCategories(ids: seq<int>)
    | StatusEquals(status: string)
    | TitleMatches(pattern: string)
    | VisibilityEquals(visibility: string)
    | PublicOnly
    | PublicOrStaff

  /**
   * What a clause restricts to once its placeholder is bound against the
   * parameter list `ps` (`$k` is `ps[k-1]`); `None` when the placeholder
   * names no parameter or a parameter of the wrong kind.
   */
  function Meaning(c: Clause, ps: seq<Param>): Option<Filter> {
    match c
    case CategoryIn(k) => if 1 <= k <= |ps| && ps[k - 1].Ids? then Some(InCategories(ps[k - 1].ids)) else None
    case StatusIs(k) => if 1 <= k <= |ps| && ps[k - 1].Text? then Some(StatusEquals(ps[k - 1].text)) else None
    case TitleLike(k) => if 1 <= k <= |ps| && ps[k - 1].Text? then Some(TitleMatches(ps[k - 1].text)) else None
    case VisibilityIs(k) => if 1 <= k <= |ps| && ps[k - 1].Text? then Some(VisibilityEquals(ps[k - 1].text)) else None
    case VisibilityIsPublic => Some(PublicOnly)
    case VisibilityIsPublicOrStaff => Some(PublicOrStaff)
  }

  /** The numbers 1, 2, ..., n in order. */
  function OneTo(n: nat): (r: seq<nat>)
    ensures |r| == n
  {
    if n == 0 then [] else OneTo(n - 1) + [n]
  }

  lemma {:induction false} OneToAt(n: nat, j: nat)
    requires j < n
    ensures OneTo(n)[j] == j + 1
  {
    if j < n - 1 {
      OneToAt(n - 1, j);
    }
  }

  /** Clause i of `cs` means filter i of `fs` once bound against `ps`. */
  ghost predicate Binds(cs: seq<Clause>, ps: seq<Param>, fs: seq<Filter>)
    decreases |cs|
  {
    && |cs| == |fs|
    && (cs != [] ==>
          && Binds(cs[..|cs| - 1], ps, fs[..|fs| - 1])
          && Meaning(cs[|cs| - 1], ps) == Some(fs[|fs| - 1]))
  }

  /**
   * The clause list `cs` with parameters `ps` expresses the filters `fs`:
   * each clause means its filter, and the placeholders, read in clause order,
   * are exactly 1, 2, ..., |ps|.
   */
  ghost predicate Describes(cs: seq<Clause>, ps: seq<Param>, fs: seq<Filter>) {
    Binds(cs, ps, fs) && Slots(cs) == OneTo(|ps|)
  }

  /** Appending parameters does not change what an already bound clause means. */
  lemma MeaningStable(c: Clause, ps: seq<Param>, more: seq<Param>)
    requires Meaning(c, ps).Some?
    ensures Meaning(c, ps + more) == Meaning(c, ps)
  {
  }

  lemma {:induction false} BindsStable(cs: seq<Clause>, ps: seq<Param>, fs: seq<Filter>, more: seq<Param>)
    requires Binds(cs, ps, fs)
    ensures Binds(cs, ps + more, fs)
    decreases |cs|
  {
    if cs != [] {
      BindsStable(cs[..|cs| - 1], ps, fs[..|fs| - 1], more);
      MeaningStable(cs[|cs| - 1], ps, more);
    }
  }

  lemma {:induction false} BindsAt(cs: seq<Clause>, ps: seq<Param>, fs: seq<Filter>, i: nat)
    requires Binds(cs, ps, fs) && i < |cs|
    ensures Meaning(cs[i], ps) == Some(fs[i])
    decreases |cs|
  {
    if i < |cs| - 1 {
      BindsAt(cs[..|cs| - 1], ps, fs[..|fs| - 1], i);
    }
  }

  /**
   * Spelled out: every clause means its filter -- in particular every
   * placeholder `$k` names an existing parameter `ps[k-1]` of the right kind --
   * and the k-th placeholder in clause order is `$k`, so each parameter is
   * used by exactly one clause.
   */
  lemma DescribesMeans(cs: seq<Clause>, ps: seq<Param>, fs: seq<Filter>)
    requires Describes(cs, ps, fs)
    ensures |cs| == |fs|
    ensures forall i :: 0 <= i < |cs| ==> Meaning(cs[i], ps) == Some(fs[i])
    ensures |Slots(cs)| == |ps|
    ensures forall j :: 0 <= j < |ps| ==> Slots(cs)[j] == j + 1
  {
    forall i | 0 <= i < |cs|
      ensures Meaning(cs[i], ps) == Some(fs[i])
    {
      BindsAt(cs, ps, fs, i);
    }
    forall j | 0 <= j < |ps|
      ensures Slots(cs)[j] == j + 1
    {
      OneToAt(|ps|, j);
    }
  }

  /** Pushing a clause with placeholder `$(|ps|+1)` together with its parameter keeps the alignment. */
  lemma PushBound(cs: seq<Clause>, ps: seq<Param>, fs: seq<Filter>, c: Clause, p: Param, f: Filter)
    requires Describes(cs, ps, fs)
    requires SlotOf(c) == Some(|ps| + 1)
    requires Meaning(c, ps + [p]) == Some(f)
    ensures Describes(cs + [c], ps + [p], fs + [f])
  {
    BindsStable(cs, ps, fs, [p]);
    assert (cs + [c])[..|cs|] == cs;
    assert (fs + [f])[..|fs|] == fs;
  }

  /** Pushing a literal clause, with no parameter, keeps the alignment. */
  lemma PushLiteral(cs: seq<Clause>, ps: seq<Param>, fs: seq<Filter>, c: Clause, f: Filter)
    requires Describes(cs, ps, fs)
    requires SlotOf(c).None?
    requires Meaning(c, ps) == Some(f)
    ensures Describes(cs + [c], ps, fs + [f])
  {
  }

  /** The visibility restriction of the listing, decided from the request and the caller. */
  function VisibilityFilter(visibility: string, user: Option<User>): (f: Option<Filter>)
    ensures visibility != "" ==> forall v :: Admits(f, v) <==> v == visibility
    ensures visibility == "" ==> (f.None? <==> user.Some? && user.value.role != RoleStaff)
    ensures visibility == "" && user.None? ==> forall v :: Admits(f, v) <==> v == VisibilityPublic
    ensures visibility == "" && user.Some? && user.value.role == RoleStaff ==>
              forall v :: Admits(f, v) <==> v == VisibilityPublic || v == VisibilityStaff
  {
    if visibility != "" then Some(VisibilityEquals(visibility))
    else if user.None? then Some(PublicOnly)
    else if user.value.role == RoleStaff then Some(PublicOrStaff)
    else None
  }

  /**
   * The filters a listing request asks for, in the fixed order category,
   * status, title search (wrapped in `%`), visibility. `tree` is the category
   * subtree the recursive query returned.
   */
  function RequestedFilters(req: ListRequest, user: Option<User>, tree: seq<int>): seq<Filter> {
    CategoryPart(req, tree) + StatusPart(req) + SearchPart(req) + VisibilityPart(req, user)
  }

  function CategoryPart(req: ListRequest, tree: seq<int>): seq<Filter> {
    if req.categoryId != "" then [InCategories(tree)] else []
  }

  function StatusPart(req: ListRequest): seq<Filter> {
    if req.status != "" then [StatusEquals(req.status)] else []
  }

  function SearchPart(req: ListRequest): seq<Filter> {
    if req.search != "" then [TitleMatches("%" + req.search + "%")] else []
  }

  function VisibilityPart(req: ListRequest, user: Option<User>): seq<Filter> {
    var f := VisibilityFilter(req.visibility, user);
    if f.Some? then [f.value] else []
  }

  /**
   * What the listing handler does once the category subtree is known: either
   * answer an empty page straight away, or run the count query (WHERE
   * string, filter parameters) and the data query (WHERE string, paging
   * placeholders, filter parameters followed by limit and offset).
   */
  datatype ListPlan =
    | EmptyPage(page: int, limit: int)
    | RunQueries(
        clauses: seq<Clause>,
        whereSql: string,
        countParams: seq<Param>,
        limitSlot: nat,
        offsetSlot: nat,
        pagingSql: string,
        dataParams: seq<Param>,
        page: int,
        limit: int)

  /**
   * The clause/parameter builder of the listing handler. Step 1 (category
   * subtree, with its early empty answer) is inline; steps 2-4 are the
   * methods below. `paramCounter` is always one more than the number of
   * parameters pushed, and is the LIMIT placeholder at the end.
   */
  method PlanListing(req: ListRequest, user: Option<User>, tree: seq<int>) returns (plan: ListPlan)
    ensures plan.EmptyPage? <==> req.categoryId != "" && tree == []
    ensures plan.page == PageOf(req) && plan.limit == LimitOf(req)
    ensures plan.RunQueries? ==>
      && Describes(plan.clauses, plan.countParams, RequestedFilters(req, user, tree))
      && plan.whereSql == WhereSql(plan.clauses)
      && plan.limitSlot == |plan.countParams| + 1
      && plan.offsetSlot == plan.limitSlot + 1
      && plan.pagingSql == PagingSql(plan.limitSlot, plan.offsetSlot)
      && plan.dataParams == plan.countParams + [Int(plan.limit), Int(Offset(plan.page, plan.limit))]
  {
    var page := PageOf(req);
    var limit := LimitOf(req);
    var offset := Offset(page, limit);

    var queryParams: seq<Param> := [];
    var whereClauses: seq<Clause> := [];
    var paramCounter: nat := 1;
    assert Describes(whereClauses, queryParams, []) by {
      assert Slots(whereClauses) == [];
    }

    // 1. The category subtree
    if req.categoryId != "" {
      if |tree| > 0 {
        PushBound(whereClauses, queryParams, [], CategoryIn(paramCounter), Ids(tree), InCategories(tree));
        whereClauses := whereClauses + [CategoryIn(paramCounter)];
        queryParams := queryParams + [Ids(tree)];
        paramCounter := paramCounter + 1;
      } else {
        return EmptyPage(page, limit);
      }
    }
    assert [] + [InCategories(tree)] == [InCategories(tree)];
    assert Describes(whereClauses, queryParams, CategoryPart(req, tree));

    whereClauses, queryParams, paramCounter :=
      AddStatusFilter(req, whereClauses, queryParams, paramCounter, CategoryPart(req, tree));
    whereClauses, queryParams, paramCounter :=
      AddSearchFilter(req, whereClauses, queryParams, paramCounter, CategoryPart(req, tree) + StatusPart(req));
    whereClauses, queryParams, paramCounter :=
      AddVisibilityFilter(req, user, whereClauses, queryParams, paramCounter,
                          CategoryPart(req, tree) + StatusPart(req) + SearchPart(req));

    var whereString := WhereSql(whereClauses);
    var countParams := queryParams;
    var paging := PagingSql(paramCounter, paramCounter + 1);
    queryParams := queryParams + [Int(limit), Int(offset)];
    plan := RunQueries(whereClauses, whereString, countParams, paramCounter, paramCounter + 1, paging, queryParams, page, limit);
  }

  /** 2. The status filter: `d.status = $n` bound to the status. */
  method AddStatusFilter(req: ListRequest, whereClauses: seq<Clause>, queryParams: seq<Param>, paramCounter: nat,
                         ghost filters: seq<Filter>)
    returns (whereClauses': seq<Clause>, queryParams': seq<Param>, paramCounter': nat)
    requires Describes(whereClauses, queryParams, filters) && paramCounter == |queryParams| + 1
    ensures Describes(whereClauses', queryParams', filters + StatusPart(req))
    ensures paramCounter' == |queryParams'| + 1
  {
    whereClauses', queryParams', paramCounter' := whereClauses, queryParams, paramCounter;
    if req.status != "" {
      PushBound(whereClauses, queryParams, filters, StatusIs(paramCounter), Text(req.status), StatusEquals(req.status));
      whereClauses' := whereClauses + [StatusIs(paramCounter)];
      queryParams' := queryParams + [Text(req.status)];
      paramCounter' := paramCounter + 1;
    } else {
      assert filters + StatusPart(req) == filters;
    }
  }

  /** 3. The title search: `d.title ILIKE $n` bound to the term wrapped in `%`. */
  method AddSearchFilter(req: ListRequest, whereClauses: seq<Clause>, queryParams: seq<Param>, paramCounter: nat,
                         ghost filters: seq<Filter>)
    returns (whereClauses': seq<Clause>, queryParams': seq<Param>, paramCounter': nat)
    requires Describes(whereClauses, queryParams, filters) && paramCounter == |queryParams| + 1
    ensures Describes(whereClauses', queryParams', filters + SearchPart(req))
    ensures paramCounter' == |queryParams'| + 1
  {
    whereClauses', queryParams', paramCounter' := whereClauses, queryParams, paramCounter;
    if req.search != "" {
      var pattern := "%" + req.search + "%";
      PushBound(whereClauses, queryParams, filters, TitleLike(paramCounter), Text(pattern), TitleMatches(pattern));
      whereClauses' := whereClauses + [TitleLike(paramCounter)];
      queryParams' := queryParams + [Text(pattern)];
      paramCounter' := paramCounter + 1;
    } else {
      assert filters + SearchPart(req) == filters;
    }
  }

  /**
   * 4. Visibility: an explicit value is bound to `$n`; otherwise a literal
   * clause for an absent caller or a Staff caller, and nothing for others.
   */
  method AddVisibilityFilter(req: ListRequest, user: Option<User>,
                             whereClauses: seq<Clause>, queryParams: seq<Param>, paramCounter: nat,
                             ghost filters: seq<Filter>)
    returns (whereClauses': seq<Clause>, queryParams': seq<Param>, paramCounter': nat)
    requires Describes(whereClauses, queryParams, filters) && paramCounter == |queryParams| + 1
    ensures Describes(whereClauses', queryParams', filters + VisibilityPart(req, user))
    ensures paramCounter' == |queryParams'| + 1
  {
    whereClauses', queryParams', paramCounter' := whereClauses, queryParams, paramCounter;
    if req.visibility != "" {
      PushBound(whereClauses, queryParams, filters, VisibilityIs(paramCounter), Text(req.visibility), VisibilityEquals(req.visibility));
      whereClauses' := whereClauses + [VisibilityIs(paramCounter)];
      queryParams' := queryParams + [Text(req.visibility)];
      paramCounter' := paramCounter + 1;
    } else {
      if user.None? {
        PushLiteral(whereClauses, queryParams, filters, VisibilityIsPublic, PublicOnly);
        whereClauses' := whereClauses + [VisibilityIsPublic];
      } else if user.value.role == RoleStaff {
        PushLiteral(whereClauses, queryParams, filters, VisibilityIsPublicOrStaff, PublicOrStaff);
        whereClauses' := whereClauses + [VisibilityIsPublicOrStaff];
      } else {
        assert filters + VisibilityPart(req, user) == filters;
      }
    }
  }

  /** The limit and offset sit at the positions their placeholders name, after every filter parameter. */
  lemma PagingPlaceholdersBind(plan: ListPlan)
    requires plan.RunQueries?
    requires plan.limitSlot == |plan.countParams| + 1 && plan.offsetSlot == plan.limitSlot + 1
    requires plan.dataParams == plan.countParams + [Int(plan.limit), Int(Offset(plan.page, plan.limit))]
    ensures |plan.dataParams| == plan.offsetSlot
    ensures plan.dataParams[plan.limitSlot - 1] == Int(plan.limit)
    ensures plan.dataParams[plan.offsetSlot - 1] == Int(Offset(plan.page, plan.limit))
    ensures plan.dataParams[..|plan.countParams|] == plan.countParams
  {
  }

  /**
   * A clause's text carries its placeholder as the only `$`, followed by the
   * decimal digits of its slot, which read back as that slot.
   */
  lemma PlaceholderTextNamesSlot(c: Clause)
    requires SlotOf(c).Some?
    ensures var (before, after) := TextAround(c);
            && ClauseSql(c) == before + "$" + NatToDecimal(SlotOf(c).value) + after
            && '$' !in before && '$' !in after
            && DecimalValue(NatToDecimal(SlotOf(c).value)) == SlotOf(c).value
  {
    DecimalRoundTrip(SlotOf(c).value);
  }

  /** Whether a visibility restriction lets a document with visibility `v` through. */
  predicate Admits(f: Option<Filter>, v: string) {
    match f
    case None => true
    case Some(PublicOnly) => v == VisibilityPublic
    case Some(PublicOrStaff) => v == VisibilityPublic || v == VisibilityStaff
    case Some(VisibilityEquals(w)) => v == w
    case Some(_) => true
  }

  // ---------------------------------------------------------------------------
  // Reading one document
  // ---------------------------------------------------------------------------

  /** The columns of a document row the handlers look at. */
  datatype Document = Document(
    id: int,
    title: Option<string>,
    description: Option<string>,
    categoryId: Option<int>,
    status: string,
    visibility: string)

  /**
   * The single-document handler once its row is fetched: 404 when there is
   * no row, before any access check; 403 when there is no caller and the
   * document is not public, or the caller is Staff and the document is
   * admin-only; the row otherwise.
   */
  function GetDocumentById(row: Option<Document>, user: Option<User>): (r: Reply<Document>)
    ensures r.NotFound? <==> row.None?
    ensures r.Forbidden? <==>
      && row.Some?
      && ((user.None? && row.value.visibility != VisibilityPublic)
          || (user.Some? && user.value.role == RoleStaff && row.value.visibility == VisibilityAdmin))
    ensures r.Found? ==> r.value == row.value
  {
    if row.None? then NotFound
    else if user.None? && row.value.visibility != VisibilityPublic then Forbidden
    else if user.Some? && user.value.role == RoleStaff && row.value.visibility == VisibilityAdmin then Forbidden
    else Found(row.value)
  }

  /** A document the listing shows a caller (no explicit visibility asked) is one that caller may open. */
  lemma ListedDocumentsAreReadable(doc: Document, user: Option<User>)
    requires Admits(VisibilityFilter("", user), doc.visibility)
    ensures GetDocumentById(Some(doc), user) == Found(doc)
  {
  }

  /** For a caller without a user, listing and opening agree exactly. */
  lemma AnonymousReadsExactlyWhatIsListed(doc: Document)
    ensures GetDocumentById(Some(doc), None).Found? <==> Admits(VisibilityFilter("", None), doc.visibility)
  {
  }

  /**
   * An explicit `visibility` in the query replaces the caller's restriction:
   * a Staff caller asking for admin documents lists them, although reading
   * any one of them by id is refused.
   */
  lemma ExplicitVisibilityListsWhatCannotBeRead(doc: Document, u: User)
    requires u.role == RoleStaff && doc.visibility == VisibilityAdmin
    ensures Admits(VisibilityFilter(VisibilityAdmin, Some(u)), doc.visibility)
    ensures GetDocumentById(Some(doc), Some(u)) == Forbidden
  {
  }

  /**
   * A caller that authentication marked with role "Public" (rather than
   * leaving the user absent) gets no visibility clause in the listing.
   */
  lemma PublicRoleUserIsNotRestricted(u: User)
    requires u.role == RolePublic
    ensures VisibilityFilter("", Some(u)).None?
  {
  }

  // ---------------------------------------------------------------------------
  // Creating a document
  // ---------------------------------------------------------------------------

  /**
   * The request body of a create call. `title` and `description` are absent
   * (`None`) or given; `categoryId` is `None` when absent, null or empty.
   * For `status` and `visibility` the handler only asks whether the value is
   * truthy, so absent and empty are both the empty string.
   */
  datatype CreateBody = CreateBody(
    title: Option<string>,
    description: Option<string>,
    categoryId: Option<int>,
    status: string,
    visibility: string)

  /** The values inserted for a new document; `None` is SQL null. */
  datatype NewDocument = NewDocument(
    title: Option<string>,
    description: Option<string>,
    categoryId: Option<int>,
    status: string,
    visibility: string,
    createdBy: Option<int>)

  /**
   * The inserted values: title and description as sent (null when absent),
   * a falsy category (absent, null, empty or 0) becomes null, a falsy status
   * becomes "draft", a falsy visibility becomes "staff", and the creator is
   * the caller's id (null for the placeholder caller without one).
   */
  function NewDocumentFor(body: CreateBody, creator: User): (d: NewDocument)
    ensures d.categoryId.None? <==> body.categoryId.None? || body.categoryId == Some(0)
    ensures body.categoryId != Some(0) ==> d.categoryId == body.categoryId
    ensures d.status != "" && d.visibility != ""
    ensures body.status != "" ==> d.status == body.status
    ensures body.status == "" ==> d.status == StatusDraft
    ensures body.visibility != "" ==> d.visibility == body.visibility
    ensures body.visibility == "" ==> d.visibility == VisibilityStaff
    ensures d.title == body.title && d.description == body.description
    ensures d.createdBy == creator.id
  {
    NewDocument(
      body.title,
      body.description,
      if body.categoryId.Some? && body.categoryId.value != 0 then body.categoryId else None,
      if body.status != "" then body.status else StatusDraft,
      if body.visibility != "" then body.visibility else VisibilityStaff,
      creator.id)
  }

  /** Submitting an inserted document's values again inserts the same values. */
  lemma DefaultsAreIdempotent(body: CreateBody, creator: User)
    ensures var d := NewDocumentFor(body, creator);
            NewDocumentFor(CreateBody(d.title, d.description, d.categoryId, d.status, d.visibility), creator) == d
  {
  }
}
