/**
 * The donor business logic: the create/update whitelists, the move of a
 * supplied password into `donorPassword`, the argument guards of the
 * create, update and delete operations, and the retention-risk classifier.
 *
 * The password hash (`hashPassword`) and the clock (`Date.now()`) are
 * parameters; the database writes and the metric aggregation are not part
 * of this module.
 */
module DonorsApi {
  import opened Js
  import Sanitize

  /** Keys accepted when a donor is created (12). */
  const CreateFields: seq<string> :=
    ["organizationId", "firstName", "lastName", "email", "phone", "address", "city", "state",
     "zipCode", "status", "retentionRisk", "donorPassword"]

  /** Keys accepted when a donor is updated (10): no organization move, no manual risk. */
  const UpdateFields: seq<string> :=
    ["firstName", "lastName", "email", "phone", "address", "city", "state", "zipCode", "status",
     "donorPassword"]

  function AllowedFields(isUpdate: bool): seq<string> {
    if isUpdate then UpdateFields else CreateFields
  }

  /** The update list is the create list without `organizationId` and `retentionRisk`; neither holds a password key. */
  lemma WhitelistShape()
    ensures |CreateFields| == 12 && |UpdateFields| == 10
    ensures forall k :: k in UpdateFields <==> k in CreateFields && k != "organizationId" && k != "retentionRisk"
    ensures "password" !in CreateFields && "confirmPassword" !in CreateFields
  {
  }

  /** The object `sanitizeDonorInput(input, isUpdate)` returns. */
  function SanitizedDonor(input: Object, isUpdate: bool): Object {
    Sanitize.Whitelisted(AllowedFields(isUpdate), input)
  }

  /** `sanitizeDonorInput(input, isUpdate)` */
  method SanitizeDonorInput(input: Object, isUpdate: bool) returns (out: Object)
    ensures out == SanitizedDonor(input, isUpdate)
    ensures forall k :: k in out <==> k in AllowedFields(isUpdate) && Get(input, k) != Undefined
    ensures forall k :: k in out ==> out[k] == Sanitize.Clean(Get(input, k))
    ensures isUpdate ==> "organizationId" !in out && "retentionRisk" !in out
    ensures "password" !in out && "confirmPassword" !in out
    ensures Defined(out)
  {
    out := Sanitize.Whitelist(AllowedFields(isUpdate), input);
  }

  /** The copy that the password step of `createDonor` and `updateDonor` leaves behind. */
  function Moved(data: Object, hashed: string): Object {
    if !Truthy(Get(data, "password")) then data
    else
      var d := data["donorPassword" := Str(hashed)] - {"password"};
      if Truthy(Get(d, "confirmPassword")) then d - {"confirmPassword"} else d
  }

  /**
   * The copy-and-delete step of `createDonor` and `updateDonor`: a truthy
   * `password` is replaced by its hash under `donorPassword`, and a truthy
   * `confirmPassword` is dropped with it.
   */
  method MovePassword(data: Object, hashed: string) returns (d: Object)
    ensures d == Moved(data, hashed)
    ensures !Truthy(Get(data, "password")) ==> d == data
    ensures Truthy(Get(data, "password")) ==>
      && "password" !in d
      && Get(d, "donorPassword") == Str(hashed)
      && (Truthy(Get(data, "confirmPassword")) ==> "confirmPassword" !in d)
      && (!Truthy(Get(data, "confirmPassword")) ==> Get(d, "confirmPassword") == Get(data, "confirmPassword"))
      && forall k :: k != "password" && k != "confirmPassword" && k != "donorPassword" ==> Get(d, k) == Get(data, k)
  {
    d := data;
    if Truthy(Get(d, "password")) {
      d := d["donorPassword" := Str(hashed)];
      d := d - {"password"};
      if Truthy(Get(d, "confirmPassword")) {
        d := d - {"confirmPassword"};
      }
    }
  }

  /** What `createDonor` writes: the donor row and whether a login user is upserted for it. */
  datatype DonorCreation = DonorCreation(data: Object, createsLogin: bool)

  /** `createDonor(donorData)` up to the database writes. */
  method CreateDonor(donorData: Object, hashed: string) returns (r: Result<DonorCreation>)
    ensures r.Err? <==> !Truthy(Get(donorData, "organizationId"))
    ensures r.Err? ==> r.error == OrganizationRequired
    ensures r.Ok? ==>
      && "password" !in r.value.data && "confirmPassword" !in r.value.data
      && (forall k :: k in r.value.data ==> k in CreateFields)
      && Get(r.value.data, "organizationId") == Sanitize.Clean(Get(donorData, "organizationId"))
      && (Truthy(Get(donorData, "password")) ==> Get(r.value.data, "donorPassword") == Sanitize.Clean(Str(hashed)))
      && (r.value.createsLogin <==> Truthy(Get(donorData, "password")) && hashed != "" && Truthy(Get(r.value.data, "email")))
    ensures r.Ok? ==> r.value.data == SanitizedDonor(Moved(donorData, hashed), false)
  {
    if !Truthy(Get(donorData, "organizationId")) {
      return Err(OrganizationRequired);
    }
    var moved := MovePassword(donorData, hashed);
    var data := SanitizeDonorInput(moved, false);
    r := Ok(DonorCreation(data, Truthy(Get(donorData, "password")) && hashed != "" && Truthy(Get(data, "email"))));
  }

  /**
   * `updateDonor({ id, organizationId, data })` up to the database writes;
   * `found` is the outcome of the organization-scoped lookup.
   */
  method UpdateDonor(id: string, organizationId: string, data: Object, found: bool, hashed: string)
    returns (r: Result<Option<Object>>)
    ensures r.Err? <==> id == "" || organizationId == ""
    ensures r.Err? ==> r.error == IdAndOrganizationRequired
    ensures r == Ok(None) <==> id != "" && organizationId != "" && !found
    ensures r.Ok? && r.value.Some? ==>
      && "password" !in r.value.value && "confirmPassword" !in r.value.value
      && "organizationId" !in r.value.value && "retentionRisk" !in r.value.value
      && (forall k :: k in r.value.value ==> k in UpdateFields)
      && (Truthy(Get(data, "password")) ==> Get(r.value.value, "donorPassword") == Sanitize.Clean(Str(hashed)))
    ensures id != "" && organizationId != "" && found ==> r == Ok(Some(SanitizedDonor(Moved(data, hashed), true)))
  {
    if id == "" || organizationId == "" {
      return Err(IdAndOrganizationRequired);
    }
    if !found {
      return Ok(None);
    }
    var moved := MovePassword(data, hashed);
    var sanitized := SanitizeDonorInput(moved, true);
    r := Ok(Some(sanitized));
  }

  /** `deleteDonor({ id, organizationId })`; `deletedCount` is what the scoped delete reports. */
  function DeleteDonor(id: string, organizationId: string, deletedCount: nat): (r: Result<bool>)
    ensures r.Err? <==> id == "" || organizationId == ""
    ensures r.Ok? ==> (r.value <==> deletedCount > 0)
  {
    if id == "" || organizationId == "" then Err(IdAndOrganizationRequired)
    else Ok(deletedCount > 0)
  }

  /** The retention-risk levels, in increasing order of risk after UNKNOWN. */
  datatype Risk = Unknown | Low | Medium | High | Critical

  function RiskName(r: Risk): string {
    match r
    case Unknown => "UNKNOWN"
    case Low => "LOW"
    case Medium => "MEDIUM"
    case High => "HIGH"
    case Critical => "CRITICAL"
  }

  /** LOW = 1 up to CRITICAL = 4. */
  function Rank(r: Risk): nat {
    match r
    case Unknown => 0
    case Low => 1
    case Medium => 2
    case High => 3
    case Critical => 4
  }

  const MsPerDay: int := 1000 * 60 * 60 * 24

  /**
   * `calculateRetentionRisk(lastGiftDate, totalGifts)` at clock `now`
   * (milliseconds).  `daysSinceLast <= d` is `now - last <= d * MsPerDay`,
   * which is exact for integer milliseconds.
   */
  function RetentionRisk(lastGiftDate: Option<int>, totalGifts: int, now: int): (risk: Risk)
    ensures risk == Unknown <==> totalGifts == 0 || lastGiftDate.None?
    ensures risk != Unknown ==>
      var elapsed := now - lastGiftDate.value;
      && (Rank(risk) <= 1 <==> elapsed <= 90 * MsPerDay)
      && (Rank(risk) <= 2 <==> elapsed <= 180 * MsPerDay)
      && (Rank(risk) <= 3 <==> elapsed <= 365 * MsPerDay)
  {
    if totalGifts == 0 || lastGiftDate.None? then Unknown
    else
      var elapsed := now - lastGiftDate.value;
      if elapsed <= 90 * MsPerDay then Low
      else if elapsed <= 180 * MsPerDay then Medium
      else if elapsed <= 365 * MsPerDay then High
      else Critical
  }

  /** As time passes without a new gift, the risk never decreases. */
  lemma RetentionRiskMonotone(lastGiftDate: Option<int>, totalGifts: int, now: int, later: int)
    requires now <= later
    ensures Rank(RetentionRisk(lastGiftDate, totalGifts, now)) <= Rank(RetentionRisk(lastGiftDate, totalGifts, later))
  {
  }

  /** Distinct levels are stored under distinct names. */
  lemma RiskNamesDistinct(a: Risk, b: Risk)
    ensures RiskName(a) == RiskName(b) ==> a == b
  {
  }
}
