/**
 * The segment list and create endpoints: the session, organization and
 * role guards (in their own order here: the role is checked before the
 * organization), the list query with its `where` and page count, and the
 * record a new segment is stored as.
 *
 * The session lookup, the two store queries and the insert are I/O: the
 * session and the record count are parameters, and the stored record is
 * the result.
 */
module SegmentsRoute {
  import opened Js
  import opened Zod
  import opened Http
  import Paging
  import SegmentSchema
  import Text

  /** The `where` of the segment list: the organization, and a name search when one is given. */
  datatype Where = Where(organizationId: string, nameContains: Option<string>)

  datatype ListPage = ListPage(where: Where, skip: int, take: int, page: int, limit: int, total: nat, totalPages: nat)

  /**
   * `GET /api/segments`: 401 without a session, 400 without an
   * organization or for a query `segmentListQuerySchema` rejects,
   * otherwise the scoped query of the requested page; `params` are the
   * query-string entries and `total` is what the count query reports.
   */
  function ListSegments(env: Env, session: Option<User>, params: Object, total: nat): (r: Response<ListPage>)
    ensures session.None? ==> r == Fail(StatusUnauthorized)
    ensures session.Some? && OrganizationOf(session.value).None? ==> r == Fail(StatusBadRequest)
    ensures r.Done? <==>
      session.Some? && OrganizationOf(session.value).Some? && Apply(env, SegmentSchema.SegmentList, Obj(params)).Some?
    ensures r.Done? ==>
      var p := r.body;
      && r.status == StatusOk
      && p.where.organizationId == OrganizationOf(session.value).value
      && (p.where.nameContains.Some? ==> p.where.nameContains.value != "")
      && (Get(params, "search") == Undefined ==> p.where.nameContains.None?)
      && (p.where.nameContains.Some? <==> Get(params, "search").Str? && Get(params, "search").s != "")
      && (p.where.nameContains.Some? ==> p.where.nameContains.value == Get(params, "search").s)
      && p.page >= 1 && 1 <= p.limit <= 100
      && (Get(params, "page") == Undefined ==> p.page == 1)
      && (Get(params, "limit") == Undefined ==> p.limit == 50)
      && (Get(params, "page") != Undefined ==> NumberOf(Get(params, "page")) == Some(p.page))
      && (Get(params, "limit") != Undefined ==> NumberOf(Get(params, "limit")) == Some(p.limit))
      && p.skip == Paging.Skip(p.page, p.limit) && p.take == p.limit
      && p.total == total && p.totalPages == Paging.PageCountAtLeastOne(total, p.limit) && p.totalPages >= 1
      && (total > 0 ==> p.totalPages == Paging.CeilDiv(total, p.limit))
  {
    if session.None? then Fail(StatusUnauthorized)
    else
      var org := OrganizationOf(session.value);
      if org.None? then Fail(StatusBadRequest)
      else
        var parsed := Apply(env, SegmentSchema.SegmentList, Obj(params));
        if parsed.None? then Fail(StatusBadRequest)
        else
          SegmentSchema.SegmentListPaging(env, params);
          SegmentSchema.SegmentListSearch(env, params);
          var out := parsed.value.fields;
          var page := Get(out, "page").n;
          var limit := Get(out, "limit").n;
          var search := Get(out, "search");
          var name := if Truthy(search) then Some(search.s) else None;
          Done(StatusOk, ListPage(Where(org.value, name), Paging.Skip(page, limit), limit, page, limit, total,
                                  Paging.PageCountAtLeastOne(total, limit)))
  }

  /**
   * `POST /api/segments`: 401 without a session, 403 for a role that may
   * not write, 400 without an organization, for a body that is not JSON
   * (`None`) or one `createSegmentSchema` rejects, otherwise 201 with the
   * stored record: the caller's organization, the name, a blank
   * description as `null`, and the rule document with `{}` for none.
   */
  function CreateSegment(env: Env, session: Option<User>, body: Option<Value>): (r: Response<Object>)
    ensures session.None? ==> r == Fail(StatusUnauthorized)
    ensures session.Some? && !CanWrite(session.value.role) ==> r == Fail(StatusForbidden)
    ensures session.Some? && CanWrite(session.value.role) && OrganizationOf(session.value).None? ==> r == Fail(StatusBadRequest)
    ensures r.Done? <==>
      && session.Some? && CanWrite(session.value.role) && OrganizationOf(session.value).Some?
      && body.Some? && Apply(env, SegmentSchema.CreateSegment, body.value).Some?
    ensures r.Done? ==>
      var row := r.body;
      var input := body.value.fields;
      && r.status == StatusCreated
      && row.Keys == {"organizationId", "name", "description", "rules"}
      && row["organizationId"] == Str(OrganizationOf(session.value).value)
      && row["name"].Str? && 1 <= Text.Utf16Length(row["name"].s) <= 120 && row["name"] == Get(input, "name")
      && (Get(input, "description") == Undefined || Get(input, "description") == Str("") <==> row["description"] == Null)
      && (row["description"] != Null ==> row["description"] == Get(input, "description"))
      && row["rules"].Obj?
      && (Get(input, "rules") == Undefined ==> row["rules"] == Obj(map[]))
      && (Get(input, "rules") != Undefined ==> Apply(env, SegmentSchema.Rules, Get(input, "rules")) == Some(row["rules"]))
  {
    if session.None? then Fail(StatusUnauthorized)
    else if !CanWrite(session.value.role) then Fail(StatusForbidden)
    else
      var org := OrganizationOf(session.value);
      if org.None? then Fail(StatusBadRequest)
      else if body.None? then Fail(StatusBadRequest)
      else
        var parsed := Apply(env, SegmentSchema.CreateSegment, body.value);
        if parsed.None? then Fail(StatusBadRequest)
        else
          SegmentSchema.SegmentStored(env, body.value);
          var out := parsed.value.fields;
          var description := Get(out, "description");
          var rules := Get(out, "rules");
          Done(StatusCreated, map[
            "organizationId" := Str(org.value),
            "name" := Get(out, "name"),
            "description" := if Truthy(description) then description else Null,
            "rules" := if Truthy(rules) then rules else Obj(map[])])
  }

  /** The two list endpoints differ in their guard order: a writer check comes first only on segment creation. */
  lemma RoleCheckedBeforeOrganization(env: Env, user: User, body: Option<Value>)
    requires !CanWrite(user.role) && OrganizationOf(user).None?
    ensures CreateSegment(env, Some(user), body) == Fail(StatusForbidden)
  {
  }
}
