# DonorConnect core in Dafny

DonorConnect is a donor-relationship manager for nonprofits. It keeps donors,
donations, campaigns, segments, tasks and workflows for each organization. This
project models the logic that decides which data is kept, how it is shaped and
which requests pass. The modelled parts are:

- **Segment form.** `buildRules` turns the flat form fields into a rule
  document (`SegmentForm`). The form reads a stored document back into its
  starting values, and the model proves that round trip. It also proves that
  tag normalisation is idempotent and that a built document passes the schema
  exactly when its status and risk are blank or enum values, its date range
  is ordered, and each number range has non-negative, ordered bounds.
- **Zod schemas.** The schemas for segments, donors, donations, campaigns,
  tasks and workflows are written as `Zod.Rule` values. `Zod.Apply` interprets
  them as zod 4 does: coercion, `.optional()`, `.or()`, `.default()`,
  `z.preprocess`, `.transform`, `.refine` and object parsing that drops
  unknown keys. The source needs zod 4: src/lib/validation/donor-schema.js:36
  calls `.partial()` on the result of `.refine(...)`. In zod 4 that result is
  still an object schema. In zod 3 it is an effects wrapper without
  `.partial()`, so the module would fail to load. The model follows zod 4
  for `.default(d)` too: `undefined` yields `d` as given, without parsing it
  again.
- **Text.** `Text` models JavaScript's string operations. `trim` removes the
  full ECMAScript WhiteSpace and LineTerminator sets. `length` and the `<`
  order work on UTF-16 code units. A Dafny `string` holds Unicode scalar
  values, so the model encodes it (`Text.Utf16`).
- **Donor API.** `DonorsApi` covers the create and update whitelists, the
  trim-and-blank-to-null rule (shared with donations in `Sanitize`), the move
  of a password into `donorPassword`, the argument guards, and the
  retention-risk classifier.
- **Donation API.** `DonationsApi` covers the `where`, `orderBy` and page
  window of `getDonations`. A class over the donation rows models the rule
  that `updateDonation` refreshes the old donor's metrics too.
- **Campaign API.** `CampaignsApi` builds the campaign list query. A class
  over a `map` from id to row models the ownership checks of get, update and
  delete.
- **Donation table.** `DonationList` covers the sort-header state machine,
  the chain of six filters, the stable sort and `formatDonationType`.
- **Route guard.** `Proxy` covers the route classification and the
  redirect decision.
- **List and create endpoints.** `DonorsRoute` and `SegmentsRoute` cover the
  status codes, the clamped paging and `totalPages`, and the stored segment
  record.

Inputs that come from the outside world are parameters:

- The clock is a parameter (`now`).
- Date-string parsing is `Env.dateOf`, where `None` is an Invalid Date.
- The e-mail and ISO date-time checks of zod are `Env.isEmail` and
  `Env.isDateTime`.
- The password hash is a parameter (`hashed`).
- The signed-in user is a parameter (`Option<Http.User>`), and so is the
  outcome of the proxy's session `fetch` (`Proxy.SessionCheck`).
- The record counts the store reports are parameters (`total`).
- `JSON.parse` of a request body is `Option<Value>`, where `None` is invalid
  JSON.

Database writes are either the result a function returns (the row that
would be written) or a `map` field of a class.

Values are JavaScript values (`Js.Value`). An absent key and a key holding
`undefined` are the same. Numbers are integers: amounts are in cents and
dates are millisecond timestamps.

The segment rule evaluator turns a stored rule document into a donor query.
It lives in a segment-detail route that is not part of this model. The model
therefore stops at building and validating rule documents and gives them no
matching semantics. In the same way, `buildRules` only ever produces the
multi-key document shape, so the single-condition shape (`field`, `operator`,
`value`) is not modelled.

## Model

| member | source | states |
|---|---|---|
| SegmentForm.NumberFieldAccepts | src/components/segments/segment-form.jsx:17 | `''`, `null` and `undefined` become a missing bound; any other value is accepted exactly when it coerces to a number of at least 0, and then yields that number |
| SegmentForm.NormalizedTagsClean | src/components/segments/segment-form.jsx:72-77 | every tag the split/trim/filter pipeline yields is non-empty, has no surrounding white space and contains no comma |
| SegmentForm.NormalizeJoined | src/components/segments/segment-form.jsx:72-77 | normalising the `', '`-join of clean tags gives back exactly those tags |
| SegmentForm.TagsIdempotent | src/components/segments/segment-form.jsx:72-77 | normalising the `', '`-joined starting value built from normalised tags yields the same list |
| SegmentForm.AddEntry | src/components/segments/segment-form.jsx:52-77 | one `if (…) built.k = v` step extends the document of the keys done so far with exactly the entry of key `k` |
| SegmentForm.BuildRules | src/components/segments/segment-form.jsx:50-79 | the result is `undefined` exactly when no key was added, and otherwise the rule document of the fields |
| SegmentForm.DocumentLists | src/components/segments/segment-form.jsx:52-53 | `donorStatus` / `retentionRisk` are present iff the field is non-empty, and then they are the one-element list of it |
| SegmentForm.DocumentRanges | src/components/segments/segment-form.jsx:54-77 | the date range is present iff either end is non-empty; each number range is present iff either bound is defined; tags are present iff the field is non-empty |
| SegmentForm.DateRangeEnds | src/components/segments/segment-form.jsx:54-59 | each end of a stored date range is the given text, or absent exactly when that end was blank |
| SegmentForm.StoredTags | src/components/segments/segment-form.jsx:72-77 | the stored tags are the normalised pieces in order, each one clean |
| SegmentForm.DocumentKeys | src/components/segments/segment-form.jsx:50-79 | the document holds only the six rule keys |
| SegmentForm.ListAccepted | src/lib/validation/segment-schema.js:25-26 | a one-element status or risk list, or its absence, passes the array-of-enum rule exactly when the value is blank or in the enum |
| SegmentForm.DateRangeAccepted | src/lib/validation/segment-schema.js:14-22 | the built date range passes `dateRangeSchema` exactly when, with both ends given, both are valid dates and `from` is not after `to` |
| SegmentForm.RangeAccepted | src/lib/validation/segment-schema.js:5-12 | the built number range passes `numberRangeSchema` exactly when each given bound is at least 0 and, with both given, min ≤ max |
| SegmentForm.TagsAccepted | src/lib/validation/segment-schema.js:30 | normalised tags always pass the trimmed non-empty tag check |
| SegmentForm.AcceptedDocumentValid | src/lib/validation/segment-schema.js:24-31 | a built document the rule schema accepts has valid enum fields, ordered dates and ordered ranges |
| SegmentForm.ValidDocumentAccepted | src/lib/validation/segment-schema.js:24-31 | a built document with valid enum fields, ordered dates and ordered ranges is accepted |
| SegmentForm.BuiltDocumentAccepted | src/lib/validation/segment-schema.js:24-31 | the built document passes `rulesSchema` if and only if the form's field checks hold and both kinds of range are ordered |
| SegmentForm.HandleSubmit | src/components/segments/segment-form.jsx:81-88 | the payload is `SubmitPayload`: the name, an empty description as `null` and the rule document, which is left out when `buildRules` gives `undefined`; it holds no other key |
| SegmentForm.SubmitPayloadAccepted | src/components/segments/segment-form.jsx:84-88 | `createSegmentSchema` accepts the submitted payload iff the description is non-empty, the name has 1–120 code units, the description ≤ 500, and the rule document, if any, is valid; a blank description, sent as `null`, is always rejected |
| SegmentForm.CorrectedPayloadAccepted | src/components/segments/segment-form.jsx:84-88 | with a blank description left out instead, the payload is accepted iff the name has 1–120 code units, the description ≤ 500, and the rule document, if any, is valid |
| SegmentForm.CorrectedName | src/lib/validation/segment-schema.js:34 | the payload's name passes its rule iff it has 1–120 code units |
| SegmentForm.CorrectedDescription | src/lib/validation/segment-schema.js:35 | the corrected payload's description passes its rule iff it has at most 500 code units, a blank one being absent |
| SegmentForm.CorrectedRules | src/lib/validation/segment-schema.js:36 | the payload's rule document passes iff it is absent or `DocumentValid` holds |
| SegmentForm.OrBlank | src/components/segments/segment-form.jsx:36-46 | `?? ''` never yields `undefined` or `null` and keeps every other value |
| SegmentForm.ReadBack | src/components/segments/segment-form.jsx:31-47 | reading the starting values fails (the `join` `TypeError`) exactly when the stored `tags` is neither nullish nor an array |
| SegmentForm.DefaultsDefined | src/components/segments/segment-form.jsx:35-46 | no starting value is `undefined` or `null` |
| SegmentForm.TagsRoundTrip | src/components/segments/segment-form.jsx:46 | the tag text read back from stored tags normalises to the same tags, and is blank exactly when the field was blank or held no tag |
| SegmentForm.ReadBackSaved | src/components/segments/segment-form.jsx:35-45 | the read-back of a saved segment, field by field, in terms of the document's entries |
| SegmentForm.DateEndsReadBack | src/components/segments/segment-form.jsx:40-41 | both date ends of a built document read back to the form's text, with a missing end as `''` |
| SegmentForm.BoundsReadBack | src/components/segments/segment-form.jsx:42-45 | each bound read back from a built range goes through `numberField` to the same bound, a missing one to `undefined` |
| SegmentForm.BoundsRoundTrip | src/components/segments/segment-form.jsx:42-45 | the four bounds read back from a saved segment turn into the form's bounds again |
| SegmentForm.SavedTagsRoundTrip | src/components/segments/segment-form.jsx:46 | the tag text read back from a saved segment normalises to the saved tags |
| SegmentForm.RoundTrip | src/components/segments/segment-form.jsx:36-41 | a saved segment reads back to its name, description, status, risk and both date ends |
| SegmentForm.CommasOnlyTags | src/components/segments/segment-form.jsx:72-78 | a tags field of commas and blanks stores an empty list, whose read-back is `''` |
| SegmentSchema.BoundRule | src/lib/validation/segment-schema.js:7-8 | a bound is accepted iff it is absent or coerces to a number ≥ 0, and yields that number |
| SegmentSchema.RangeShape | src/lib/validation/segment-schema.js:5-9 | the object part of a range checks both bounds and keeps nothing else |
| SegmentSchema.NumberRangeAccepts | src/lib/validation/segment-schema.js:5-12 | a range is accepted iff each present bound is ≥ 0 and, with both present, min ≤ max |
| SegmentSchema.DateShape | src/lib/validation/segment-schema.js:14-18 | the object part of a date range accepts absent or string ends and keeps them |
| SegmentSchema.DateRangeAccepts | src/lib/validation/segment-schema.js:14-22 | a date range is accepted iff its ends are strings or absent and, with both non-empty, they are valid dates with from ≤ to |
| SegmentSchema.RuleStatusesAccepted | src/lib/validation/segment-schema.js:25 | every listed status of an accepted document is a donor status |
| SegmentSchema.RuleRisksAccepted | src/lib/validation/segment-schema.js:26 | every listed risk of an accepted document is a retention risk |
| SegmentSchema.RuleTagsAccepted | src/lib/validation/segment-schema.js:30 | every tag of an accepted document is a string that is not blank, and the parsed tag is its trim |
| SegmentSchema.SegmentAccepted | src/lib/validation/segment-schema.js:33-37 | an accepted segment has a name of 1–120 UTF-16 code units and a description that is absent, empty or ≤ 500 code units |
| SegmentSchema.SegmentStored | src/lib/validation/segment-schema.js:33-37 | only an object is accepted; its name and description are kept, and its rules are absent iff the input has none, otherwise the object `rulesSchema` makes of the input's rules |
| SegmentSchema.SegmentWithoutRulesAccepted | src/lib/validation/segment-schema.js:33-37 | a valid name with no description and no rules is accepted |
| SegmentSchema.SegmentListPaging | src/lib/validation/segment-schema.js:41-45 | the list query has page ≥ 1 (default 1) and limit in 1..100 (default 50); a given page or limit is its `Number()` coercion |
| SegmentSchema.SegmentListSearch | src/lib/validation/segment-schema.js:44 | the search term is passed through, absent or a string |
| SegmentsRoute.ListSegments | src/app/api/segments/route.js:7-61 | 401 without a session, 400 without an organization or for a rejected query; otherwise the organization-scoped `where` with a name search exactly for a non-empty search string, holding that string; page and limit are the coerced query values (defaults 1 and 50), page ≥ 1, limit in 1..100, `skip = (page-1)*limit`, `take = limit` and `totalPages = PageCountAtLeastOne(total, limit)`, that is `max(1, ceil(total/limit))` |
| SegmentsRoute.CreateSegment | src/app/api/segments/route.js:63-103 | 401, then 403 for a non-writer, then 400 without an organization, for invalid JSON or a rejected body; otherwise 201 with the caller's organization, the name, a blank description as `null`, and the rules `rulesSchema` parses from the body, or `{}` when there are none |
| SegmentsRoute.RoleCheckedBeforeOrganization | src/app/api/segments/route.js:69-74 | a non-writer without an organization gets 403, not 400 |
| DonorsRoute.PageParam | src/app/api/donors/route.js:23 | the page is at least 1, defaults to 1 and keeps a requested page ≥ 1 |
| DonorsRoute.LimitParam | src/app/api/donors/route.js:24 | the limit is clamped to 1..50 and defaults to 10 |
| DonorsRoute.ClampsIdempotent | src/app/api/donors/route.js:23-24 | clamping a clamped page or limit changes nothing |
| DonorsRoute.ClampsMonotone | src/app/api/donors/route.js:23-24 | a larger request never gives a smaller page or limit |
| DonorsRoute.DonorWhere | src/app/api/donors/route.js:27-38 | the `where` holds the organization, and the first name/last name/email `OR` exactly for a non-empty search |
| DonorsRoute.ListDonors | src/app/api/donors/route.js:8-78 | 401 without a session and 400 without an organization, before any query; otherwise status 200, `where = DonorWhere(org, search)`, page and limit `PageParam(page)` and `LimitParam(limit)`, `skip`/`take` from them, and `totalPages = PageCountAtLeastOne(total, limit)`, that is `max(1, ceil(total/limit))` |
| DonorsRoute.EveryDonorOnAPage | src/app/api/donors/route.js:45-63 | every counted donor lies on a page between 1 and `totalPages` |
| DonorsRoute.CreateDonor | src/app/api/donors/route.js:80-118 | 401, then 400 without an organization, then 403 for a non-writer, then 400 for invalid JSON or a rejected body; otherwise 201 with the row `createDonor` builds from the parsed body with the caller's organization set (`SanitizedDonor(Moved(…), false)`): the sanitised organization, no password keys, only whitelisted keys, and a login user exactly when the hash is non-empty and an e-mail is kept |
| Http.OrganizationOf | src/app/api/donors/route.js:17 | `organizationId \|\| organization?.id`: present iff either is non-empty, preferring `organizationId` |
| Sanitize.Clean | src/lib/api/donors.js:13-14 | strings are trimmed with JavaScript's full white-space set and a blank one becomes `null`; other values pass unchanged |
| Sanitize.CleanIdempotent | src/lib/api/donors.js:13-14 | cleaning twice is cleaning once |
| Sanitize.CleanNull | src/lib/api/donors.js:13-14 | a string is stored as `null` exactly when it is empty or made only of the characters `trim` removes (ECMAScript WhiteSpace and LineTerminator) |
| Sanitize.Whitelist | src/lib/api/donations.js:7-13 | the accumulator has a key iff it is allowed and its input is not `undefined`, holding the cleaned input value; it is the map `Whitelisted(allowed, input)` |
| DonorsApi.WhitelistShape | src/lib/api/donors.js:8-10 | 12 create keys and 10 update keys; the update list is the create list without `organizationId` and `retentionRisk`; neither list holds a password key |
| DonorsApi.SanitizeDonorInput | src/lib/api/donors.js:7-18 | the output is `SanitizedDonor(input, isUpdate)`; its keys are the allowed, defined input keys with cleaned values; update mode never outputs `organizationId` or `retentionRisk`; no password key is output |
| DonorsApi.MovePassword | src/lib/api/donors.js:88-95 | the copy is `Moved(data, hashed)`: a truthy password is replaced by its hash under `donorPassword`, a truthy `confirmPassword` is dropped, everything else is kept |
| DonorsApi.CreateDonor | src/lib/api/donors.js:83-122 | fails exactly when `organizationId` is falsy; otherwise the row is `SanitizedDonor(Moved(donorData, hashed), false)`, has only create keys and no password keys, and a login user is made iff a password is given, its hash is non-empty and an e-mail is kept |
| DonorsApi.UpdateDonor | src/lib/api/donors.js:131-150 | fails iff the id or the organization is missing, gives null iff the scoped lookup finds nothing, and otherwise the update is `SanitizedDonor(Moved(data, hashed), true)`: only update keys and no password, organization or risk key |
| DonorsApi.DeleteDonor | src/lib/api/donors.js:158-165 | fails iff the id or the organization is missing, and otherwise reports whether a row was deleted |
| DonorsApi.RetentionRisk | src/lib/api/donors.js:20-27 | UNKNOWN iff there are no gifts or no last gift date; otherwise LOW up to 90 days, MEDIUM up to 180, HIGH up to 365 and CRITICAL beyond |
| DonorsApi.RetentionRiskMonotone | src/lib/api/donors.js:22-26 | with no new gift, the risk never decreases as time passes |
| DonorsApi.RiskNamesDistinct | src/lib/api/donors.js:21-26 | distinct levels have distinct names |
| DonationsApi.SanitizeDonationInput | src/lib/api/donations.js:5-14 | output keys are the allowed, defined input keys, with strings trimmed and blanks as `null` |
| DonationsApi.OrderFor | src/lib/api/donations.js:91-105 | the mapped order for date/amount/donor/campaign, and order by date for any other `sortBy` |
| DonationsApi.BoundsFilter | src/lib/api/donations.js:71-80 | the range is present iff a bound is defined, with `gte`/`lte` exactly for the defined bounds |
| DonationsApi.DonationWhere | src/lib/api/donations.js:64-89 | the `where` is `WhereFor(args)`: it is scoped by `donor.organizationId`; each optional filter is present exactly when its argument is truthy or defined; the four-column `OR` exactly for a truthy search |
| DonationsApi.GetDonations | src/lib/api/donations.js:46-121 | fails exactly for a missing organization; otherwise `where = WhereFor(args)` (the filter `DonationWhere` builds), the default page 1 and limit 50, the default order by date descending, `skip = (page-1)*limit` and `take = limit` |
| DonationsApi.DonationStore.UpdateDonation | src/lib/api/donations.js:153-183 | fails iff the id or the organization is missing; gives null and changes nothing when the row is not visible to the organization; otherwise merges the cleaned fields and refreshes the new donor |
| DonationsApi.OldDonorRefreshedIffMoved | src/lib/api/donations.js:175-180 | the old donor is refreshed too exactly when the donation moved, which needs a `donorId` in the update |
| CampaignsApi.CampaignWhere | src/lib/api/campaigns.js:11-20 | the `where` holds the organization, a status exactly when it is truthy, and the name/description `OR` exactly for a truthy search |
| CampaignsApi.OrderFor | src/lib/api/campaigns.js:23-31 | the order column is `sortBy` for the five known columns and `createdAt` otherwise |
| CampaignsApi.GetCampaigns | src/lib/api/campaigns.js:7-53 | `where = CampaignWhere(org, search, status)` (status and search filters exactly when truthy), order `OrderFor(sortBy ?? 'createdAt', sortOrder ?? 'desc')` with the requested direction, default page 1 and limit 50, `skip = (page-1)*limit`, `take = limit` and a known order column |
| CampaignsApi.PagesHaveNoLowerClamp | src/lib/api/campaigns.js:50 | `pages` is 0 exactly when there are no campaigns, and the last page is not empty |
| CampaignsApi.CampaignStore.GetCampaign | src/lib/api/campaigns.js:58-81 | gives the row exactly when it exists and belongs to the organization |
| CampaignsApi.CampaignStore.CreateCampaign | src/lib/api/campaigns.js:86-93 | stores `{ organizationId, ...data }` under the new id |
| CampaignsApi.CampaignStore.UpdateCampaign | src/lib/api/campaigns.js:98-109 | null and an unchanged store unless the organization owns the row; otherwise the merged row is stored |
| CampaignsApi.CampaignStore.DeleteCampaign | src/lib/api/campaigns.js:114-124 | null and an unchanged store unless the organization owns the row; otherwise the row is removed |
| CampaignsApi.CrossOrganizationIsolation | src/lib/api/campaigns.js:98-119 | another organization's get, update and delete leave the store as it was |
| CampaignsApi.CreatedCampaignIsScoped | src/lib/api/campaigns.js:86-93 | a created campaign is owned by its organization and by no other |
| DonationList.NextSort | src/components/donations/donation-list.jsx:26-33 | clicking the sorted column flips the direction; clicking another selects it ascending |
| DonationList.ClickTwiceRestores | src/components/donations/donation-list.jsx:26-33 | two clicks on the sorted column restore its direction |
| DonationList.SortState.HandleSort | src/components/donations/donation-list.jsx:26-33 | the new state is the next sort state of the old one |
| DonationList.MatchesAllSteps | src/components/donations/donation-list.jsx:43-74 | passing the six filter steps one after another is satisfying every active filter |
| DonationList.KeepCount | src/components/donations/donation-list.jsx:43-74 | each donation is kept as often as it occurs when it passes, and never otherwise |
| DonationList.KeepAllWhenBlank | src/components/donations/donation-list.jsx:43-71 | with every filter blank the chain keeps the whole list in order |
| DonationList.AmountFilters | src/components/donations/donation-list.jsx:56-64 | the minimum and maximum amount steps take the list after the first two filters to the list after four |
| DonationList.DateFilters | src/components/donations/donation-list.jsx:66-74 | the start and end date steps take the list after four filters to the list after all six |
| DonationList.CompareOrder | src/components/donations/donation-list.jsx:105-107 | the comparator is antisymmetric and non-positive exactly for the requested order |
| DonationList.InOrderTransitive | src/components/donations/donation-list.jsx:105-107 | for a column of one kind of key, the requested order is transitive |
| DonationList.ColumnKeyKinds | src/components/donations/donation-list.jsx:80-102 | each column yields one kind of key, and no key exactly for a column outside date/donor/amount/type/campaign |
| DonationList.SortByPermutes | src/components/donations/donation-list.jsx:77-108 | the sort is a permutation |
| DonationList.SortBySorted | src/components/donations/donation-list.jsx:77-108 | the sort orders by the column key, ascending or descending |
| DonationList.SortByStable | src/components/donations/donation-list.jsx:77-108 | donations with equal keys keep their relative order |
| DonationList.SortByUnknownField | src/components/donations/donation-list.jsx:101-102 | for an unknown column the order is kept |
| DonationList.FilterChain | src/components/donations/donation-list.jsx:40-74 | the six filter steps keep exactly the donations the chain specifies, in order |
| DonationList.FilteredAndSorted | src/components/donations/donation-list.jsx:39-111 | the result is a sub-multiset of the input holding exactly the donations that match every filter, sorted by the chosen column |
| DonationList.FormatIsWordCase | src/components/donations/donation-list.jsx:121-123 | underscores become spaces and each word keeps its first character with the rest lower-cased |
| DonationList.FormatOneTime | src/components/donations/donation-list.jsx:121-123 | `ONE_TIME` is shown as `One Time` |
| Proxy.RoutesDisjoint | src/proxy.js:5-17 | no path is both protected and an auth route |
| Proxy.AnyPrefix | src/proxy.js:16-17 | `routes.some(r => pathname.startsWith(r))`: some listed route is a prefix of the path |
| Proxy.Decide | src/proxy.js:10-54 | redirect to login (with `from`) exactly for a protected path without a token or with a rejected session; pass when the check throws; redirect to the dashboard exactly for an auth route with a token; pass otherwise |
| Proxy.PublicPathsPass | src/proxy.js:53 | a path in neither group always passes |
| Proxy.ProtectedPrefixes | src/proxy.js:5-16 | every listed prefix, and every path under it, is protected |
| Paging.CeilDiv | src/lib/api/donations.js:118 | `ceil(total/limit)` is the least page count whose pages hold `total` records |
| Paging.PageCountAtLeastOne | src/app/api/segments/route.js:51 | `max(1, ceil(total/limit))` is at least 1 and is `ceil(total/limit)` when there are records |
| Paging.PageOfRecord | src/app/api/segments/route.js:37-38 | record `i` lies in the window of page `p` exactly when `p = i / limit + 1`: the windows partition the records |
| Paging.PagesCoverRecords | src/lib/api/campaigns.js:50 | every record is on a page from 1 to the page count, and the last page is not empty |
| DonorSchema.RiskNamesAreTheEnum | src/lib/validation/donor-schema.js:6 | the classifier's levels are exactly the risk enum, in order |
| DonorSchema.DonorNames | src/lib/validation/donor-schema.js:11-12 | first and last names are 1–50 characters |
| DonorSchema.DonorEnums | src/lib/validation/donor-schema.js:19-20 | status and risk come from their enums and default to ACTIVE and UNKNOWN |
| DonorSchema.DonorPasswords | src/lib/validation/donor-schema.js:21-22 | both passwords are required non-empty strings |
| DonorSchema.CreateDonorAccepted | src/lib/validation/donor-schema.js:9-33 | an accepted donor has bounded names, equal non-empty passwords and enum status and risk with their defaults |
| DonorSchema.CreateDonorObject | src/lib/validation/donor-schema.js:9-33 | only an object is accepted, and it yields an object with a non-empty password |
| DonorSchema.DonorContacts | src/lib/validation/donor-schema.js:14-18 | each contact field is absent, empty or within its bound (phone 20, address 200, city 100, state 50, zip 20), and is kept as given |
| DonorSchema.MinimalDonorAccepted | src/lib/validation/donor-schema.js:9-33 | bounded names and equal non-empty passwords, with every other field absent, are accepted |
| DonorSchema.MinimalFieldsAccepted | src/lib/validation/donor-schema.js:10-23 | the object part accepts bounded names and non-empty passwords with every other field absent |
| DonorSchema.AbsentAccepted | src/lib/validation/donor-schema.js:13-20 | every contact field, the status and the risk may be absent |
| DonorSchema.DonorListPaging | src/lib/validation/donor-schema.js:40-41 | page ≥ 1 (default 1), limit in 1..100 (default 20) |
| DonorSchema.DonorListOrder | src/lib/validation/donor-schema.js:45-46 | sortBy is one of six fields (default firstName), sortOrder asc or desc (default asc) |
| DonationSchema.DonationRequired | src/lib/validation/donation-schema.js:8-16 | a non-empty donor, a positive amount, a date and a type from the enum (default ONE_TIME) |
| DonationSchema.DonationFreeText | src/lib/validation/donation-schema.js:14-15 | method ≤ 50 and notes ≤ 1000 characters, or empty or absent |
| DonationSchema.NonPositiveAmountRejected | src/lib/validation/donation-schema.js:11 | a zero or negative amount is rejected |
| DonationSchema.DonationListPaging | src/lib/validation/donation-schema.js:23-24 | page ≥ 1 (default 1), limit in 1..100 (default 20) |
| DonationSchema.DonationListOrder | src/lib/validation/donation-schema.js:33-34 | sortBy is date/amount/donor/campaign (default date), sortOrder default desc |
| CampaignSchema.PreprocessIsEmptyToUndefined | src/lib/validation/campaign-schema.js:5 | the preprocess step maps `''` and `null` to `undefined` before its inner rule |
| CampaignSchema.BlankGoalRejected | src/lib/validation/campaign-schema.js:15-20 | as written, a blank or `null` goal or date is rejected |
| CampaignSchema.BlankGoalRejectsCampaign | src/lib/validation/campaign-schema.js:15-17 | as written, a campaign with a blank goal is rejected |
| CampaignSchema.GoalAccepts | src/lib/validation/campaign-schema.js:15-17 | corrected: a blank, `null` or absent goal means no goal; anything else must be a positive number |
| CampaignSchema.DateAccepts | src/lib/validation/campaign-schema.js:19-20 | corrected: a blank, `null` or absent date means no date; anything else must be a valid date |
| CampaignSchema.CorrectionOnlyForBlanks | src/lib/validation/campaign-schema.js:15-20 | the correction changes nothing but the treatment of `''` and `null` |
| CampaignSchema.BlankFormAccepted | src/lib/validation/campaign-schema.js:11-23 | corrected: the form's blank starting values pass once a name is given |
| CampaignSchema.AsWrittenAgrees | src/lib/validation/campaign-schema.js:12-22 | every input the schema as written accepts, the corrected schema accepts with the same output |
| CampaignSchema.CampaignAccepted | src/lib/validation/campaign-schema.js:12-22 | under the schema as written and the corrected one alike: name of 1–100 characters; status from the enum, DRAFT by default |
| CampaignSchema.CampaignGoal | src/lib/validation/campaign-schema.js:15-17 | under the schema as written and the corrected one alike: the goal is absent, or the positive number the input coerces to |
| CampaignSchema.CampaignFreeText | src/lib/validation/campaign-schema.js:13-21 | under the schema as written and the corrected one alike: description ≤ 1000 and type ≤ 50 characters, or empty or absent |
| CampaignSchema.CampaignListPaging | src/lib/validation/campaign-schema.js:30-31 | page ≥ 1 (default 1), limit in 1..100 (default 20) |
| CampaignSchema.CampaignListOrder | src/lib/validation/campaign-schema.js:34-35 | sortBy is one of five columns (default createdAt), sortOrder default desc, and the API orders by that very column |
| TaskSchema.TaskAccepted | src/lib/validation/task-schema.js:3-11 | title of 1–255 characters and a non-empty assignee |
| TaskSchema.TaskEnums | src/lib/validation/task-schema.js:6-7 | status and priority from their enums, TODO and MEDIUM by default |
| TaskSchema.TaskDescription | src/lib/validation/task-schema.js:5 | the description is absent or at most 1000 characters |
| TaskSchema.TaskBlanks | src/lib/validation/task-schema.js:8-9 | a blank or `null` due date or donor becomes `null`; otherwise the value is kept |
| TaskSchema.TaskListPaging | src/lib/validation/task-schema.js:15-18 | page positive (default 1), limit in 1..100 (default 50) |
| WorkflowSchema.StepAccepted | src/lib/validation/workflow-schema.js:4-9 | a step is an object whose type, when present, is email/sms/note/task and whose delay, when present, is a number |
| WorkflowSchema.WorkflowAccepted | src/lib/validation/workflow-schema.js:11-14 | name of 1–255 characters and one of the six triggers |
| WorkflowSchema.WorkflowDescription | src/lib/validation/workflow-schema.js:13 | the description is absent or at most 1000 characters |
| WorkflowSchema.WorkflowSteps | src/lib/validation/workflow-schema.js:15 | every step of an accepted workflow passed the step schema, in order |
| WorkflowSchema.WorkflowDefaults | src/lib/validation/workflow-schema.js:16-17 | a blank segment becomes `null`; `isActive` is a boolean, false by default |
| WorkflowSchema.WorkflowListPaging | src/lib/validation/workflow-schema.js:22-26 | page positive (default 1), limit in 1..100 (default 50) |
| Zod.ParseFieldsSpec | src/lib/validation/segment-schema.js:24-31 | an object schema accepts iff every key does, and the output holds the parsed value of each key and nothing else |
| Zod.ShapeAccepts | src/lib/validation/segment-schema.js:33-37 | an object whose every key passes its rule is accepted, and the output holds only the schema's keys |
| Zod.TextRule | src/lib/validation/segment-schema.js:30 | `z.string()` with `.trim()`, `.min` and `.max`: accepts exactly the strings whose (trimmed) length in UTF-16 code units is within the bounds, and yields the (trimmed) string |
| Zod.NumberRule | src/lib/validation/segment-schema.js:42-43 | a number is accepted exactly within its bounds and kept; without coercion nothing else is; `undefined` never is |
| Zod.NumberOf | src/lib/validation/segment-schema.js:7-8 | `Number()` coercion keeps a number, maps `null` and `''` to 0, and fails on `undefined` (NaN) |
| Zod.DefaultChoice | src/lib/validation/donor-schema.js:19-20 | an enum with a default accepts absent or listed strings, and yields the default, as given, when absent |
| Zod.ApplyAllSpec | src/lib/validation/segment-schema.js:30 | an array rule accepts iff every element does, and yields the parsed elements in order |
| Zod.RefineSpec | src/lib/validation/segment-schema.js:5-12 | a refined rule accepts exactly the objects its inner rule yields that satisfy the check |
| Zod.OptionalOrEmpty | src/lib/validation/donor-schema.js:14-18 | `z.string().max(n).optional().or(z.literal(''))` accepts absent, empty or bounded strings and keeps them |
| Zod.BlankToNull | src/lib/validation/task-schema.js:8-9 | the `''`→null transform maps a blank to `null` and keeps whatever else its inner rule accepts |
| Zod.DefaultNumber | src/lib/validation/segment-schema.js:42-43 | a defaulted bounded number yields its default when absent, accepts a number exactly within its bounds, and yields the `Number()` coercion of any other accepted value |
| Zod.EmptyToUndefined | src/lib/validation/campaign-schema.js:5 | `''` and `null` become `undefined`; every other value is kept |
| Text.TrimEmpty | src/lib/api/donors.js:13-14 | `trim` is empty exactly for a string made only of ECMAScript white space and line terminators |
| Text.Trim | src/lib/api/donors.js:13 | the trimmed string has no WhiteSpace or LineTerminator character at either end and is no longer than the input |
| Text.Split | src/components/segments/segment-form.jsx:74 | `split` yields at least one piece and no piece contains the separator |
| Text.Lower | src/components/donations/donation-list.jsx:44-48 | each character is mapped by `LowerChar` (A–Z to a–z, every other character kept), so the length is kept |
| Text.SplitJoin | src/components/segments/segment-form.jsx:46 | splitting a join at its separator gives back the pieces, when none contains the separator |
| Text.LexLessTransitive | src/components/donations/donation-list.jsx:105-106 | the string `<` is transitive |
| Text.LexLessUtf16 | src/components/donations/donation-list.jsx:105-106 | `LexLess` holds iff the UTF-16 encodings compare lexicographically by code unit, which is how JavaScript's `<` compares strings |
| Text.Utf16Length | src/lib/validation/segment-schema.js:34 | `length` counts UTF-16 code units: between one and two per character, zero only for the empty string |
| Text.Utf16LengthBmp | src/lib/validation/segment-schema.js:34 | a string with no character above U+FFFF has as many code units as characters |

## Left out

- The segment rule evaluator is not part of this model. It turns a stored rule document into a donor query in a segment-detail route. So are the single-condition rule shape, `hasRecurring`, the member count and the 1000-row cap.
- Database reads and writes are left out: `findMany`, `count`, `aggregate`, `upsert`, `create`, `Promise.all`. The counts are parameters, and writes are the rows returned or the class's `map`.
- `calculateDonorMetrics` and `updateDonorMetrics` aggregate and write. Only which donors get refreshed is modelled.
- Every `catch` that answers 500 is left out, and so is the form's `setError` path. The model has no exceptions other than the modelled `throw`s.
- The zod error messages and the `safeParse` error structure are left out. A rejection is `None`.
- The update schemas built with `.partial()` are not modelled as separate rules.
- Floating point is left out: amounts are integer cents, and `parseFloat` and `avgGift` are not modelled.
- Zod.NumberOf: `Number()` coercion of a string covers decimal-integer text only (after `trim` and an optional sign). Decimals, exponents, hexadecimal and `Infinity` are not modelled. Such text gives `None`, which stands for NaN.
- Zod.NumberRule: numbers are unbounded integers. zod 4's `.int()` also rejects values beyond ±(2^53 − 1), and that limit is not modelled.
- Text.Lower: folds A–Z only. JavaScript's `toLowerCase` applies the full Unicode case mapping ('É' becomes 'é', and 'İ' becomes two characters). So the donor-name filter and the donor sort key in src/components/donations/donation-list.jsx:44-48 and 86-87 are exact only for names whose capitals are A–Z. The fold in `formatDonationType` (src/components/donations/donation-list.jsx:121-123) is exact, because the donation type values are capitals A–Z and underscores.
- Text.Utf16: a Dafny `string` cannot hold a lone surrogate. So a JavaScript string with an unpaired surrogate has no counterpart in the model.
- Date parsing is the parameter `Env.dateOf`. `Date.now()` is the parameter `now`.
- DonorsRoute.PageParam: models `parseInt` of a numeric parameter only. A non-numeric page gives NaN in the source, and NaN is not modelled.
- DonorsRoute.LimitParam: models `parseInt` of a numeric parameter only. A non-numeric limit gives NaN in the source, and NaN is not modelled.
- SegmentForm.ReadBack: a stored tag that is not a string is rendered by a parameter `show` standing for JavaScript's `String`.
- SegmentForm.RoundTrip: states the name, description, status, risk and dates. The bounds are covered by `BoundsRoundTrip` and the tags by `SavedTagsRoundTrip`, which holds only up to normalisation. A tags field of only commas and blanks stores `[]` and reads back as `''` (`CommasOnlyTags`).
- SegmentsRoute.CreateSegment: the stored record has no id and no timestamps, because the store assigns them.
- DonationsApi.GetDonations: `totalPages = Math.ceil(total / limit)` is stated once, by `Paging.CeilDiv`, for a positive limit. A limit of 0 (division by zero) is not modelled.
- Authentication, sessions, cookies and password hashing are left out. The user and the hash are parameters. So is the outcome of the proxy's session `fetch`.
- React rendering, hooks and toasts are left out, and so are the badge components.
- The duplicate `formatDonationType` in the profile page is left out.
- The other route handlers (tasks, donations, campaigns, users, profile) are left out.

## Findings

| source | as written | input that shows it | evidently intended | confidence | as-written member | corrected member |
|---|---|---|---|---|---|---|
| src/lib/validation/campaign-schema.js:15-20 | `.optional()` wraps the `z.preprocess(emptyToUndefined, …)` from outside. `''` becomes `undefined` inside the preprocess, where `z.coerce.number()` and `z.coerce.date()` reject it. | a campaign with `goal: ''` (the form's starting value), or `startDate: null` | a blank or `null` goal or date is treated as left out, as the comment on line 14 says | not executed | CampaignSchema.BlankGoalRejected, CampaignSchema.BlankGoalRejectsCampaign | CampaignSchema.GoalAccepts, CampaignSchema.DateAccepts, CampaignSchema.BlankFormAccepted |
| src/components/segments/segment-form.jsx:86 | `handleSubmit` sends `null` as the description when the description field is blank. `createSegmentSchema` at src/lib/validation/segment-schema.js:35 accepts a description only when it is absent, a string of at most 500 code units or `''`. | the form submitted with a valid name and an empty description | a segment without a description is saved, with the description left out or `null` accepted | not executed | SegmentForm.SubmitPayloadAccepted | SegmentForm.CorrectedPayloadAccepted |
