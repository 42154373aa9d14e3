/**
 * The campaign business logic: the list query of `getCampaigns` and the
 * organization-scoped reads and writes of single campaigns.  The store is a
 * map from campaign id to the stored row; a row owned by another
 * organization is treated exactly like a missing one.
 */
module CampaignsApi {
  import opened Js
  import Paging
  import opened Query

  datatype SearchField = Name | Description

  /** The `where` object of the campaign list. */
  datatype Where = Where(organizationId: string, status: Option<string>, or: Option<seq<Contains<SearchField>>>)

  /** The `orderBy` object: `{ [column]: sortOrder }`. */
  datatype Order = Order(column: string, dir: string)

  /** The columns a caller may sort by; each maps to the column of the same name. */
  const SortColumns: seq<string> := ["name", "startDate", "endDate", "goal", "createdAt"]

  /** The arguments of `getCampaigns`; `None` is an argument left `undefined`. */
  datatype ListArgs = ListArgs(
    organizationId: string,
    search: Option<string>,
    status: Option<string>,
    sortBy: Option<string>,
    sortOrder: Option<string>,
    page: Option<int>,
    limit: Option<int>)

  datatype ListPlan = ListPlan(where: Where, orderBy: Order, skip: int, take: int, page: int, limit: int)

  function OrDefault<T>(o: Option<T>, d: T): T {
    if o.Some? then o.value else d
  }

  /** The `where` spread: status only when truthy, the name/description search only when truthy. */
  function CampaignWhere(organizationId: string, search: Option<string>, status: Option<string>): (w: Where)
    ensures w.organizationId == organizationId
    ensures w.status.Some? <==> TruthyText(status)
    ensures w.status.Some? ==> w.status == status
    ensures w.or.Some? <==> TruthyText(search)
    ensures w.or.Some? ==> w.or.value == [Contains(Name, search.value), Contains(Description, search.value)]
  {
    Where(organizationId,
          if TruthyText(status) then status else None,
          if TruthyText(search) then Some(SearchAll([Name, Description], search.value)) else None)
  }

  /** `{ [orderByMap[sortBy] || 'createdAt']: sortOrder }` */
  function OrderFor(sortBy: string, sortOrder: string): (o: Order)
    ensures o.dir == sortOrder
    ensures o.column in SortColumns
    ensures sortBy in SortColumns ==> o.column == sortBy
    ensures sortBy !in SortColumns ==> o.column == "createdAt"
  {
    Order(if sortBy in SortColumns then sortBy else "createdAt", sortOrder)
  }

  /** `getCampaigns(args)` up to the two store queries. */
  function GetCampaigns(args: ListArgs): (plan: ListPlan)
    ensures plan.where.organizationId == args.organizationId
    ensures plan.page == OrDefault(args.page, 1) && plan.limit == OrDefault(args.limit, 50)
    ensures plan.skip == Paging.Skip(plan.page, plan.limit) && plan.take == plan.limit
    ensures plan.orderBy.column in SortColumns
    ensures plan.where == CampaignWhere(args.organizationId, args.search, args.status)
    ensures plan.where.status.Some? <==> TruthyText(args.status)
    ensures plan.where.or.Some? <==> TruthyText(args.search)
    ensures plan.orderBy == OrderFor(OrDefault(args.sortBy, "createdAt"), OrDefault(args.sortOrder, "desc"))
    ensures plan.orderBy.dir == OrDefault(args.sortOrder, "desc")
  {
    var page := OrDefault(args.page, 1);
    var limit := OrDefault(args.limit, 50);
    ListPlan(CampaignWhere(args.organizationId, args.search, args.status),
             OrderFor(OrDefault(args.sortBy, "createdAt"), OrDefault(args.sortOrder, "desc")),
             Paging.Skip(page, limit), limit, page, limit)
  }

  /** `pages: Math.ceil(total / limit)`: zero pages for no campaigns, no lower clamp. */
  lemma PagesHaveNoLowerClamp(total: nat, limit: nat)
    requires limit > 0
    ensures Paging.CeilDiv(total, limit) == 0 <==> total == 0
    ensures total > 0 ==> Paging.Skip(Paging.CeilDiv(total, limit), limit) < total
  {
    if total > 0 {
      Paging.PagesCoverRecords(total, limit, 0);
    }
  }

  /** The organization that owns a stored row. */
  function OwnerOf(row: Object): Value {
    Get(row, "organizationId")
  }

  /** The campaign rows, by id. */
  class CampaignStore {
    var campaigns: map<string, Object>

    constructor (campaigns: map<string, Object>)
      ensures this.campaigns == campaigns
    {
      this.campaigns := campaigns;
    }

    /** The row `id` exists and belongs to `organizationId`. */
    predicate Owns(id: string, organizationId: string)
      reads this
    {
      id in campaigns && OwnerOf(campaigns[id]) == Str(organizationId)
    }

    /** `getCampaign(id, organizationId)` */
    method GetCampaign(id: string, organizationId: string) returns (r: Option<Object>)
      ensures r.Some? <==> Owns(id, organizationId)
      ensures r.Some? ==> r.value == campaigns[id] && OwnerOf(r.value) == Str(organizationId)
    {
      if id !in campaigns || OwnerOf(campaigns[id]) != Str(organizationId) {
        return None;
      }
      r := Some(campaigns[id]);
    }

    /** `createCampaign(organizationId, data)`: `{ organizationId, ...data }`, stored under a new id. */
    method CreateCampaign(id: string, organizationId: string, data: Object) returns (row: Object)
      requires id !in campaigns
      modifies this
      ensures row == map["organizationId" := Str(organizationId)] + data
      ensures campaigns == old(campaigns)[id := row]
    {
      row := map["organizationId" := Str(organizationId)] + data;
      campaigns := campaigns[id := row];
    }

    /** `updateCampaign(id, organizationId, data)` */
    method UpdateCampaign(id: string, organizationId: string, data: Object) returns (r: Option<Object>)
      modifies this
      ensures r.Some? <==> old(Owns(id, organizationId))
      ensures r.None? ==> campaigns == old(campaigns)
      ensures r.Some? ==> r.value == old(campaigns[id]) + data && campaigns == old(campaigns)[id := r.value]
    {
      if id !in campaigns || OwnerOf(campaigns[id]) != Str(organizationId) {
        return None;
      }
      var updated := campaigns[id] + data;
      campaigns := campaigns[id := updated];
      r := Some(updated);
    }

    /** `deleteCampaign(id, organizationId)` */
    method DeleteCampaign(id: string, organizationId: string) returns (r: Option<Object>)
      modifies this
      ensures r.Some? <==> old(Owns(id, organizationId))
      ensures r.None? ==> campaigns == old(campaigns)
      ensures r.Some? ==> r.value == old(campaigns[id]) && campaigns == old(campaigns) - {id}
    {
      if id !in campaigns || OwnerOf(campaigns[id]) != Str(organizationId) {
        return None;
      }
      r := Some(campaigns[id]);
      campaigns := campaigns - {id};
    }
  }

  /** Another organization can neither see, change nor delete a campaign: the store is left as it was. */
  method CrossOrganizationIsolation(store: CampaignStore, id: string, owner: string, other: string, data: Object)
    requires id in store.campaigns && OwnerOf(store.campaigns[id]) == Str(owner) && other != owner
    modifies store
    ensures store.campaigns == old(store.campaigns)
  {
    var seen := store.GetCampaign(id, other);
    assert seen.None?;
    var updated := store.UpdateCampaign(id, other, data);
    var deleted := store.DeleteCampaign(id, other);
  }

  /** A campaign created by an organization, without an `organizationId` of its own in the data, is visible to it and to no one else. */
  method CreatedCampaignIsScoped(store: CampaignStore, id: string, organizationId: string, other: string, data: Object)
    requires id !in store.campaigns && "organizationId" !in data && other != organizationId
    modifies store
    ensures store.Owns(id, organizationId) && !store.Owns(id, other)
  {
    var row := store.CreateCampaign(id, organizationId, data);
    assert OwnerOf(row) == Str(organizationId);
  }
}
