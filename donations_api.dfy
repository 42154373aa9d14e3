/**
 * The donation business logic: the input whitelist, the list query that
 * `getDonations` builds (filters, search, order and page window), and the
 * rule that an update refreshes the metrics of the new donor and, when the
 * donation moved, of the old donor too.
 */
module DonationsApi {
  import opened Js
  import Sanitize
  import Paging
  import opened Query

  /** The seven donation fields a caller may set. */
  const DonationFields: seq<string> := ["donorId", "campaignId", "amount", "date", "type", "method", "notes"]

  /** `sanitizeDonationInput(input)` */
  method SanitizeDonationInput(input: Object) returns (out: Object)
    ensures forall k :: k in out <==> k in DonationFields && Get(input, k) != Undefined
    ensures forall k :: k in out ==> out[k] == Sanitize.Clean(Get(input, k))
    ensures Defined(out)
  {
    out := Sanitize.Whitelist(DonationFields, input);
  }

  /** The columns the free-text search looks at. */
  datatype SearchField = DonorFirstName | DonorLastName | DonorEmail | CampaignName

  const SearchFields: seq<SearchField> := [DonorFirstName, DonorLastName, DonorEmail, CampaignName]

  /** The `where` object of the donation list. */
  datatype Where = Where(
    donorOrganizationId: string,
    donorId: Option<string>,
    campaignId: Option<string>,
    donationType: Option<string>,
    amount: Option<Range>,
    date: Option<Range>,
    or: Option<seq<Contains<SearchField>>>)

  /** The `orderBy` object: one column and the requested direction. */
  datatype Order = ByDate(dir: string) | ByAmount(dir: string) | ByDonorFirstName(dir: string) | ByCampaignName(dir: string)

  /** The arguments of `getDonations`; `None` is an argument left `undefined`. */
  datatype ListArgs = ListArgs(
    organizationId: string,
    page: Option<int>,
    limit: Option<int>,
    search: Option<string>,
    donorId: Option<string>,
    campaignId: Option<string>,
    donationType: Option<string>,
    minAmount: Option<int>,
    maxAmount: Option<int>,
    startDate: Option<int>,
    endDate: Option<int>,
    sortBy: Option<string>,
    sortOrder: Option<string>)

  /** What `getDonations` sends to the store: filter, order and page window. */
  datatype ListPlan = ListPlan(where: Where, orderBy: Order, skip: int, take: int, page: int, limit: int)

  function OrDefault<T>(o: Option<T>, d: T): T {
    if o.Some? then o.value else d
  }

  /** `orderByMap[sortBy] || orderByMap.date` */
  function OrderFor(sortBy: string, sortOrder: string): (o: Order)
    ensures o.dir == sortOrder
    ensures sortBy !in ["date", "amount", "donor", "campaign"] ==> o == ByDate(sortOrder)
    ensures sortBy == "amount" <==> o.ByAmount?
    ensures sortBy == "donor" <==> o.ByDonorFirstName?
    ensures sortBy == "campaign" <==> o.ByCampaignName?
  {
    if sortBy == "amount" then ByAmount(sortOrder)
    else if sortBy == "donor" then ByDonorFirstName(sortOrder)
    else if sortBy == "campaign" then ByCampaignName(sortOrder)
    else ByDate(sortOrder)
  }

  /** Lines 71-80 of `getDonations`: `{}` gains `gte` and `lte` for the bounds that are defined. */
  method BoundsFilter(lower: Option<int>, upper: Option<int>) returns (r: Option<Range>)
    ensures r.Some? <==> lower.Some? || upper.Some?
    ensures r.Some? ==> r.value == Range(lower, upper)
  {
    r := None;
    if lower.Some? || upper.Some? {
      var range := Range(None, None);
      if lower.Some? { range := range.(gte := lower); }
      if upper.Some? { range := range.(lte := upper); }
      r := Some(range);
    }
  }

  /** The `where` that `getDonations` sends for `args`, as one value. */
  function WhereFor(args: ListArgs): Where {
    Where(
      args.organizationId,
      if TruthyText(args.donorId) then args.donorId else None,
      if TruthyText(args.campaignId) then args.campaignId else None,
      if TruthyText(args.donationType) then args.donationType else None,
      if args.minAmount.Some? || args.maxAmount.Some? then Some(Range(args.minAmount, args.maxAmount)) else None,
      if args.startDate.Some? || args.endDate.Some? then Some(Range(args.startDate, args.endDate)) else None,
      if TruthyText(args.search) then Some(SearchAll(SearchFields, args.search.value)) else None)
  }

  /** The `where` of `getDonations`, built key by key. */
  method DonationWhere(args: ListArgs) returns (w: Where)
    ensures w == WhereFor(args)
    ensures w.donorOrganizationId == args.organizationId
    ensures w.donorId.Some? <==> TruthyText(args.donorId)
    ensures w.donorId.Some? ==> w.donorId == args.donorId
    ensures w.campaignId.Some? <==> TruthyText(args.campaignId)
    ensures w.campaignId.Some? ==> w.campaignId == args.campaignId
    ensures w.donationType.Some? <==> TruthyText(args.donationType)
    ensures w.donationType.Some? ==> w.donationType == args.donationType
    ensures w.amount.Some? <==> args.minAmount.Some? || args.maxAmount.Some?
    ensures w.amount.Some? ==> w.amount.value == Range(args.minAmount, args.maxAmount)
    ensures w.date.Some? <==> args.startDate.Some? || args.endDate.Some?
    ensures w.date.Some? ==> w.date.value == Range(args.startDate, args.endDate)
    ensures w.or.Some? <==> TruthyText(args.search)
    ensures w.or.Some? ==> w.or.value == SearchAll(SearchFields, args.search.value)
  {
    w := Where(args.organizationId, None, None, None, None, None, None);
    if TruthyText(args.donorId) { w := w.(donorId := args.donorId); }
    if TruthyText(args.campaignId) { w := w.(campaignId := args.campaignId); }
    if TruthyText(args.donationType) { w := w.(donationType := args.donationType); }
    var amount := BoundsFilter(args.minAmount, args.maxAmount);
    w := w.(amount := amount);
    var date := BoundsFilter(args.startDate, args.endDate);
    w := w.(date := date);
    if TruthyText(args.search) {
      w := w.(or := Some(SearchAll(SearchFields, args.search.value)));
    }
  }

  /** `getDonations(args)` up to the two store queries. */
  method GetDonations(args: ListArgs) returns (r: Result<ListPlan>)
    ensures r.Err? <==> args.organizationId == ""
    ensures r.Err? ==> r.error == OrganizationRequired
    ensures r.Ok? ==>
      && r.value.where == WhereFor(args)
      && r.value.where.donorOrganizationId == args.organizationId
      && (r.value.where.or.Some? <==> TruthyText(args.search))
      && (r.value.where.amount.Some? <==> args.minAmount.Some? || args.maxAmount.Some?)
      && (r.value.where.date.Some? <==> args.startDate.Some? || args.endDate.Some?)
      && r.value.page == OrDefault(args.page, 1)
      && r.value.limit == OrDefault(args.limit, 50)
      && r.value.orderBy == OrderFor(OrDefault(args.sortBy, "date"), OrDefault(args.sortOrder, "desc"))
      && r.value.skip == Paging.Skip(r.value.page, r.value.limit)
      && r.value.take == r.value.limit
  {
    if args.organizationId == "" {
      return Err(OrganizationRequired);
    }
    var w := DonationWhere(args);
    var page := OrDefault(args.page, 1);
    var limit := OrDefault(args.limit, 50);
    var orderBy := OrderFor(OrDefault(args.sortBy, "date"), OrDefault(args.sortOrder, "desc"));
    r := Ok(ListPlan(w, orderBy, Paging.Skip(page, limit), limit, page, limit));
  }

  /** The donor a stored donation row points to. */
  function DonorOf(row: Object): Value {
    Get(row, "donorId")
  }

  /**
   * The donation rows, the organization of each donor, and the log of
   * `updateDonorMetrics` calls (the donor ids whose metrics were recomputed).
   */
  class DonationStore {
    var donations: map<string, Object>
    var donorOrganization: map<string, string>
    var refreshed: seq<Value>

    constructor (donations: map<string, Object>, donorOrganization: map<string, string>)
      ensures this.donations == donations && this.donorOrganization == donorOrganization
      ensures refreshed == []
    {
      this.donations := donations;
      this.donorOrganization := donorOrganization;
      refreshed := [];
    }

    /** `findFirst({ where: { id, donor: { organizationId } } })` finds the row. */
    predicate Visible(id: string, organizationId: string)
      reads this
    {
      && id in donations
      && DonorOf(donations[id]).Str?
      && DonorOf(donations[id]).s in donorOrganization
      && donorOrganization[DonorOf(donations[id]).s] == organizationId
    }

    /** `updateDonation({ id, organizationId, data })` */
    method UpdateDonation(id: string, organizationId: string, data: Object) returns (r: Result<Option<Object>>)
      modifies this
      ensures r.Err? <==> id == "" || organizationId == ""
      ensures r == Ok(None) <==> id != "" && organizationId != "" && !old(Visible(id, organizationId))
      ensures r.Err? || r == Ok(None) ==> unchanged(this)
      ensures r.Ok? && r.value.Some? ==>
        var before := old(donations[id]);
        var after := r.value.value;
        && old(Visible(id, organizationId))
        && (forall k :: k in DonationFields && Get(data, k) != Undefined ==> Get(after, k) == Sanitize.Clean(Get(data, k)))
        && (forall k :: k !in DonationFields || Get(data, k) == Undefined ==> Get(after, k) == Get(before, k))
        && donations == old(donations)[id := after]
        && donorOrganization == old(donorOrganization)
        && refreshed == old(refreshed) + [DonorOf(after)]
                        + (if DonorOf(before) != DonorOf(after) then [DonorOf(before)] else [])
    {
      if id == "" || organizationId == "" {
        return Err(IdAndOrganizationRequired);
      }
      if !Visible(id, organizationId) {
        return Ok(None);
      }
      var existing := donations[id];
      var sanitized := SanitizeDonationInput(data);
      var updated := existing + sanitized;
      donations := donations[id := updated];
      refreshed := refreshed + [DonorOf(updated)];
      if DonorOf(existing) != DonorOf(updated) {
        refreshed := refreshed + [DonorOf(existing)];
      }
      r := Ok(Some(updated));
    }
  }

  /** The metrics of the old donor are recomputed exactly when the donation moved to another donor. */
  lemma OldDonorRefreshedIffMoved(before: Object, data: Object, after: Object)
    requires forall k :: k in DonationFields && Get(data, k) != Undefined ==> Get(after, k) == Sanitize.Clean(Get(data, k))
    requires forall k :: k !in DonationFields || Get(data, k) == Undefined ==> Get(after, k) == Get(before, k)
    ensures DonorOf(before) != DonorOf(after) ==>
      Get(data, "donorId") != Undefined && Sanitize.Clean(Get(data, "donorId")) != DonorOf(before)
    ensures Get(data, "donorId") == Undefined ==> DonorOf(after) == DonorOf(before)
  {
  }
}
