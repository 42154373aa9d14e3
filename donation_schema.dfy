/** The donation input schemas: the type enum, the create schema and the list query. */
module DonationSchema {
  import opened Js
  import opened Zod
  import Text

  const DonationTypes: seq<string> := ["ONE_TIME", "RECURRING", "PLEDGE", "IN_KIND"]

  const CreateDonationKeys: seq<string> := ["donorId", "campaignId", "amount", "date", "type", "method", "notes"]

  const CreateDonationRules: seq<Rule> :=
    [Text(false, 1, None), Or(Optional(Text(false, 0, None)), Literal("")),
     Number(true, Some(1), None), CoerceDate, Default(Choice(DonationTypes), Str("ONE_TIME")),
     Or(Optional(Text(false, 0, Some(50))), Literal("")), Or(Optional(Text(false, 0, Some(1000))), Literal(""))]

  /** `createDonationSchema`; `.positive()` on an integer amount is a lower bound of 1. */
  const CreateDonation: Rule := Shape(CreateDonationKeys, CreateDonationRules)

  const DonationListKeys: seq<string> :=
    ["page", "limit", "search", "donorId", "campaignId", "type", "minAmount", "maxAmount",
     "startDate", "endDate", "sortBy", "sortOrder"]

  const DonationListRules: seq<Rule> :=
    [Default(Number(true, Some(1), None), Num(1)), Default(Number(true, Some(1), Some(100)), Num(20)),
     Optional(Text(false, 0, None)), Optional(Text(false, 0, None)), Optional(Text(false, 0, None)),
     Optional(Choice(DonationTypes)), Optional(Number(true, None, None)), Optional(Number(true, None, None)),
     Optional(CoerceDate), Optional(CoerceDate),
     Default(Choice(["date", "amount", "donor", "campaign"]), Str("date")),
     Default(Choice(["asc", "desc"]), Str("desc"))]

  /** `donationListQuerySchema` */
  const DonationList: Rule := Shape(DonationListKeys, DonationListRules)

  lemma CreateDonationKeysDistinct()
    ensures DistinctFrom(CreateDonationKeys, 0)
  {
  }

  lemma DonationListKeysDistinct()
    ensures DistinctFrom(DonationListKeys, 0)
  {
  }

  /**
   * An accepted donation names a donor, has a positive amount and a valid
   * date, and its type is one of the four, ONE_TIME when left out.
   */
  lemma DonationRequired(env: Env, input: Object)
    requires Apply(env, CreateDonation, Obj(input)).Some?
    ensures var out := Apply(env, CreateDonation, Obj(input)).value.fields;
      && Get(out, "donorId").Str? && Get(out, "donorId").s != ""
      && Get(out, "amount").Num? && Get(out, "amount").n > 0
      && Get(out, "date").Date?
      && Get(out, "type").Str? && Get(out, "type").s in DonationTypes
      && (Get(input, "type") == Undefined ==> Get(out, "type") == Str("ONE_TIME"))
  {
    DonationDonorAndAmount(env, input);
    DonationDate(env, input);
    DonationType(env, input);
  }

  lemma DonationDonorAndAmount(env: Env, input: Object)
    requires Apply(env, CreateDonation, Obj(input)).Some?
    ensures var out := Apply(env, CreateDonation, Obj(input)).value.fields;
      && Get(out, "donorId").Str? && Get(out, "donorId").s != ""
      && Get(out, "amount").Num? && Get(out, "amount").n > 0
  {
    CreateDonationKeysDistinct();
    FieldOf(env, CreateDonationKeys, CreateDonationRules, input, 0);
    FieldOf(env, CreateDonationKeys, CreateDonationRules, input, 2);
  }

  lemma DonationDate(env: Env, input: Object)
    requires Apply(env, CreateDonation, Obj(input)).Some?
    ensures Get(Apply(env, CreateDonation, Obj(input)).value.fields, "date").Date?
  {
    CreateDonationKeysDistinct();
    FieldOf(env, CreateDonationKeys, CreateDonationRules, input, 3);
  }

  lemma DonationType(env: Env, input: Object)
    requires Apply(env, CreateDonation, Obj(input)).Some?
    ensures var t := Get(Apply(env, CreateDonation, Obj(input)).value.fields, "type");
      && t.Str? && t.s in DonationTypes
      && (Get(input, "type") == Undefined ==> t == Str("ONE_TIME"))
  {
    CreateDonationKeysDistinct();
    FieldOf(env, CreateDonationKeys, CreateDonationRules, input, 4);
    DefaultChoice(env, DonationTypes, "ONE_TIME", Get(input, "type"));
  }

  /** The payment method is at most 50 characters and the notes at most 1000, or either is empty or absent. */
  lemma DonationFreeText(env: Env, input: Object)
    requires Apply(env, CreateDonation, Obj(input)).Some?
    ensures var m := Get(input, "method"); m == Undefined || (m.Str? && Text.Utf16Length(m.s) <= 50)
    ensures var n := Get(input, "notes"); n == Undefined || (n.Str? && Text.Utf16Length(n.s) <= 1000)
  {
    CreateDonationKeysDistinct();
    FieldOf(env, CreateDonationKeys, CreateDonationRules, input, 5);
    FieldOf(env, CreateDonationKeys, CreateDonationRules, input, 6);
    OptionalOrEmpty(env, 0, 50, Get(input, "method"));
    OptionalOrEmpty(env, 0, 1000, Get(input, "notes"));
  }

  /** A zero or negative amount is rejected, however the rest of the donation looks. */
  lemma NonPositiveAmountRejected(env: Env, input: Object)
    requires Get(input, "amount").Num? && Get(input, "amount").n <= 0
    ensures Apply(env, CreateDonation, Obj(input)).None?
  {
    if Apply(env, CreateDonation, Obj(input)).Some? {
      CreateDonationKeysDistinct();
      FieldOf(env, CreateDonationKeys, CreateDonationRules, input, 2);
    }
  }

  /** The donation list query's page is at least 1 (default 1) and its limit within 1..100 (default 20). */
  lemma DonationListPaging(env: Env, input: Object)
    requires Apply(env, DonationList, Obj(input)).Some?
    ensures var out := Apply(env, DonationList, Obj(input)).value.fields;
      && Get(out, "page").Num? && 1 <= Get(out, "page").n
      && Get(out, "limit").Num? && 1 <= Get(out, "limit").n <= 100
      && (Get(input, "page") == Undefined ==> Get(out, "page") == Num(1))
      && (Get(input, "limit") == Undefined ==> Get(out, "limit") == Num(20))
  {
    DonationListKeysDistinct();
    FieldOf(env, DonationListKeys, DonationListRules, input, 0);
    FieldOf(env, DonationListKeys, DonationListRules, input, 1);
    DefaultNumber(env, 1, None, 1, Get(input, "page"));
    DefaultNumber(env, 1, Some(100), 20, Get(input, "limit"));
  }

  /** The donation list sorts by date, amount, donor or campaign (default date), asc or desc (default desc). */
  lemma DonationListOrder(env: Env, input: Object)
    requires Apply(env, DonationList, Obj(input)).Some?
    ensures var out := Apply(env, DonationList, Obj(input)).value.fields;
      && Get(out, "sortBy").Str? && Get(out, "sortBy").s in ["date", "amount", "donor", "campaign"]
      && Get(out, "sortOrder").Str? && Get(out, "sortOrder").s in ["asc", "desc"]
      && (Get(input, "sortBy") == Undefined ==> Get(out, "sortBy") == Str("date"))
      && (Get(input, "sortOrder") == Undefined ==> Get(out, "sortOrder") == Str("desc"))
  {
    DonationListKeysDistinct();
    FieldOf(env, DonationListKeys, DonationListRules, input, 10);
    FieldOf(env, DonationListKeys, DonationListRules, input, 11);
    DefaultChoice(env, ["date", "amount", "donor", "campaign"], "date", Get(input, "sortBy"));
    DefaultChoice(env, ["asc", "desc"], "desc", Get(input, "sortOrder"));
  }
}
