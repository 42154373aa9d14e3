/**
 * The donor list and create endpoints: the session and organization
 * guards, the page and limit clamps, the `where` of the list, the page
 * count, and the role and payload checks before a donor is created.
 *
 * The session lookup, the two store queries and the insert are I/O: the
 * session, the record count and the password hash are parameters, and the
 * list itself is not part of this module.
 */
module DonorsRoute {
  import opened Js
  import opened Zod
  import opened Http
  import opened Query
  import Paging
  import DonorSchema
  import DonorsApi
  import Sanitize

  /**
   * `Math.max(1, parseInt(page || '1', 10))` for a numeric parameter;
   * `None` is a parameter that is missing or empty.
   */
  function PageParam(page: Option<int>): (p: int)
    ensures p >= 1
    ensures page.None? ==> p == 1
    ensures page.Some? && page.value >= 1 ==> p == page.value
    ensures page.Some? && page.value < 1 ==> p == 1
  {
    var requested := if page.Some? then page.value else 1;
    if requested < 1 then 1 else requested
  }

  /** `Math.min(50, Math.max(1, parseInt(limit || '10', 10)))` for a numeric parameter. */
  function LimitParam(limit: Option<int>): (l: int)
    ensures 1 <= l <= 50
    ensures limit.None? ==> l == 10
    ensures limit.Some? && 1 <= limit.value <= 50 ==> l == limit.value
    ensures limit.Some? && limit.value < 1 ==> l == 1
    ensures limit.Some? && limit.value > 50 ==> l == 50
  {
    var requested := if limit.Some? then limit.value else 10;
    var atLeastOne := if requested < 1 then 1 else requested;
    if atLeastOne > 50 then 50 else atLeastOne
  }

  /** Clamping an already clamped page or limit changes nothing. */
  lemma ClampsIdempotent(page: Option<int>, limit: Option<int>)
    ensures PageParam(Some(PageParam(page))) == PageParam(page)
    ensures LimitParam(Some(LimitParam(limit))) == LimitParam(limit)
  {
  }

  /** A larger requested page or limit never yields a smaller one. */
  lemma ClampsMonotone(a: int, b: int)
    requires a <= b
    ensures PageParam(Some(a)) <= PageParam(Some(b))
    ensures LimitParam(Some(a)) <= LimitParam(Some(b))
  {
  }

  datatype SearchField = FirstName | LastName | EmailAddress

  /** The `where` of the donor list. */
  datatype Where = Where(organizationId: string, or: Option<seq<Contains<SearchField>>>)

  /** `{ organizationId, ...(search ? { OR: [...] } : {}) }` */
  function DonorWhere(organizationId: string, search: string): (w: Where)
    ensures w.organizationId == organizationId
    ensures w.or.Some? <==> search != ""
    ensures w.or.Some? ==> w.or.value == [Contains(FirstName, search), Contains(LastName, search), Contains(EmailAddress, search)]
  {
    Where(organizationId, if search != "" then Some(SearchAll([FirstName, LastName, EmailAddress], search)) else None)
  }

  /** The list query and the `pagination` of the response. */
  datatype ListPage = ListPage(where: Where, skip: int, take: int, page: int, limit: int, total: nat, totalPages: nat)

  /**
   * `GET /api/donors`: 401 without a session, 400 without an
   * organization, otherwise the scoped query of the requested page;
   * `total` is what the count query reports.
   */
  function ListDonors(session: Option<User>, page: Option<int>, limit: Option<int>, search: string, total: nat)
    : (r: Response<ListPage>)
    ensures session.None? ==> r == Fail(StatusUnauthorized)
    ensures session.Some? && OrganizationOf(session.value).None? ==> r == Fail(StatusBadRequest)
    ensures r.Done? <==> session.Some? && OrganizationOf(session.value).Some?
    ensures r.Done? ==>
      var p := r.body;
      && r.status == StatusOk
      && p.where == DonorWhere(OrganizationOf(session.value).value, search)
      && p.where.organizationId == OrganizationOf(session.value).value
      && (p.where.or.Some? <==> search != "")
      && p.page == PageParam(page) && p.limit == LimitParam(limit)
      && p.page >= 1 && 1 <= p.limit <= 50
      && p.skip == Paging.Skip(p.page, p.limit) && p.take == p.limit
      && p.total == total && p.totalPages == Paging.PageCountAtLeastOne(total, p.limit) && p.totalPages >= 1
      && (total > 0 ==> p.totalPages == Paging.CeilDiv(total, p.limit))
  {
    if session.None? then Fail(StatusUnauthorized)
    else
      var org := OrganizationOf(session.value);
      if org.None? then Fail(StatusBadRequest)
      else
        var p := PageParam(page);
        var l := LimitParam(limit);
        Done(StatusOk, ListPage(DonorWhere(org.value, search), Paging.Skip(p, l), l, p, l, total,
                                Paging.PageCountAtLeastOne(total, l)))
  }

  /** Every counted donor is on one of the pages the response announces. */
  lemma EveryDonorOnAPage(session: Option<User>, page: Option<int>, limit: Option<int>, search: string, total: nat, i: nat)
    requires ListDonors(session, page, limit, search, total).Done?
    requires i < total
    ensures var p := ListDonors(session, page, limit, search, total).body;
      1 <= i / p.limit + 1 <= p.totalPages
  {
    var p := ListDonors(session, page, limit, search, total).body;
    Paging.PagesCoverRecords(total, p.limit, i);
  }

  /** The request is signed in, has an organization and a writer role. */
  predicate MayCreate(session: Option<User>) {
    session.Some? && OrganizationOf(session.value).Some? && CanWrite(session.value.role)
  }

  /**
   * `POST /api/donors`: 401 without a session, 400 without an
   * organization, 403 for a role that may not write, 400 for a body that
   * is not JSON (`None`) or fails `createDonorSchema`, otherwise 201 with
   * the donor `createDonor` stores for the caller's organization.
   */
  method CreateDonor(env: Env, session: Option<User>, body: Option<Value>, hashed: string)
    returns (r: Response<DonorsApi.DonorCreation>)
    ensures session.None? ==> r == Fail(StatusUnauthorized)
    ensures session.Some? && OrganizationOf(session.value).None? ==> r == Fail(StatusBadRequest)
    ensures session.Some? && OrganizationOf(session.value).Some? && !CanWrite(session.value.role) ==> r == Fail(StatusForbidden)
    ensures MayCreate(session) && (body.None? || Apply(env, DonorSchema.CreateDonor, body.value).None?) ==> r == Fail(StatusBadRequest)
    ensures r.Done? <==> MayCreate(session) && body.Some? && Apply(env, DonorSchema.CreateDonor, body.value).Some?
    ensures r.Done? ==>
      var row := r.body.data;
      && r.status == StatusCreated
      && Get(row, "organizationId") == Sanitize.Clean(Str(OrganizationOf(session.value).value))
      && "password" !in row && "confirmPassword" !in row
      && (forall k :: k in row ==> k in DonorsApi.CreateFields)
      && (r.body.createsLogin <==> hashed != "" && Truthy(Get(row, "email")))
    ensures r.Done? ==>
      var out := Apply(env, DonorSchema.CreateDonor, body.value).value;
      && out.Obj?
      && r.body.data == DonorsApi.SanitizedDonor(
           DonorsApi.Moved(out.fields["organizationId" := Str(OrganizationOf(session.value).value)], hashed), false)
  {
    if session.None? {
      return Fail(StatusUnauthorized);
    }
    var org := OrganizationOf(session.value);
    if org.None? {
      return Fail(StatusBadRequest);
    }
    if !CanWrite(session.value.role) {
      return Fail(StatusForbidden);
    }
    if body.None? {
      return Fail(StatusBadRequest);
    }
    var parsed := Apply(env, DonorSchema.CreateDonor, body.value);
    if parsed.None? {
      return Fail(StatusBadRequest);
    }
    DonorSchema.CreateDonorObject(env, body.value);
    var input := parsed.value.fields["organizationId" := Str(org.value)];
    var created := DonorsApi.CreateDonor(input, hashed);
    r := Done(StatusCreated, created.value);
  }
}
