/** The donor input schemas: the enums, the create schema with its password check, and the list query. */
module DonorSchema {
  import opened Js
  import opened Zod
  import Text
  import DonorsApi

  const DonorStatuses: seq<string> := ["ACTIVE", "LAPSED", "INACTIVE", "DO_NOT_CONTACT"]
  const RetentionRisks: seq<string> := ["UNKNOWN", "LOW", "MEDIUM", "HIGH", "CRITICAL"]

  /** `z.string().max(max).optional().or(z.literal(''))` */
  function OptionalText(max: nat): Rule {
    Or(Optional(Text(false, 0, Some(max))), Literal(""))
  }

  const CreateDonorKeys: seq<string> :=
    ["firstName", "lastName", "email", "phone", "address", "city", "state", "zipCode",
     "status", "retentionRisk", "password", "confirmPassword"]

  const CreateDonorRules: seq<Rule> :=
    [Text(false, 1, Some(50)), Text(false, 1, Some(50)), Or(Optional(Email), Literal("")),
     OptionalText(20), OptionalText(200), OptionalText(100), OptionalText(50), OptionalText(20),
     Default(Choice(DonorStatuses), Str("ACTIVE")), Default(Choice(RetentionRisks), Str("UNKNOWN")),
     Text(false, 1, None), Text(false, 1, None)]

  /** The object part of `createDonorSchema`, before its password refinement. */
  const DonorFields: Rule := Shape(CreateDonorKeys, CreateDonorRules)

  /** `createDonorSchema` */
  const CreateDonor: Rule := Refine(DonorFields, PasswordsMatch)

  const DonorSortFields: seq<string> :=
    ["firstName", "lastName", "email", "totalGifts", "totalAmount", "lastGiftDate"]

  const DonorListKeys: seq<string> := ["page", "limit", "search", "status", "retentionRisk", "sortBy", "sortOrder"]

  const DonorListRules: seq<Rule> :=
    [Default(Number(true, Some(1), None), Num(1)), Default(Number(true, Some(1), Some(100)), Num(20)),
     Optional(Text(false, 0, None)), Optional(Choice(DonorStatuses)), Optional(Choice(RetentionRisks)),
     Default(Choice(DonorSortFields), Str("firstName")), Default(Choice(["asc", "desc"]), Str("asc"))]

  /** `donorListQuerySchema` */
  const DonorList: Rule := Shape(DonorListKeys, DonorListRules)

  /** The risk levels the classifier produces are exactly the enum's values, in the same order. */
  lemma RiskNamesAreTheEnum()
    ensures forall r :: DonorsApi.RiskName(r) in RetentionRisks
    ensures RetentionRisks == [DonorsApi.RiskName(DonorsApi.Unknown), DonorsApi.RiskName(DonorsApi.Low),
                               DonorsApi.RiskName(DonorsApi.Medium), DonorsApi.RiskName(DonorsApi.High),
                               DonorsApi.RiskName(DonorsApi.Critical)]
  {
  }

  lemma CreateDonorKeysDistinct()
    ensures DistinctFrom(CreateDonorKeys, 0)
  {
  }

  /** Names are 1 to 50 characters. */
  lemma DonorNames(env: Env, input: Object)
    requires Apply(env, DonorFields, Obj(input)).Some?
    ensures var out := Apply(env, DonorFields, Obj(input)).value.fields;
      && Get(out, "firstName").Str? && 1 <= Text.Utf16Length(Get(out, "firstName").s) <= 50
      && Get(out, "lastName").Str? && 1 <= Text.Utf16Length(Get(out, "lastName").s) <= 50
  {
    CreateDonorKeysDistinct();
    FieldOf(env, CreateDonorKeys, CreateDonorRules, input, 0);
    FieldOf(env, CreateDonorKeys, CreateDonorRules, input, 1);
  }

  /** Status and risk come from their enums and default to ACTIVE and UNKNOWN. */
  lemma DonorEnums(env: Env, input: Object)
    requires Apply(env, DonorFields, Obj(input)).Some?
    ensures var out := Apply(env, DonorFields, Obj(input)).value.fields;
      && Get(out, "status").Str? && Get(out, "status").s in DonorStatuses
      && Get(out, "retentionRisk").Str? && Get(out, "retentionRisk").s in RetentionRisks
      && (Get(input, "status") == Undefined ==> Get(out, "status") == Str("ACTIVE"))
      && (Get(input, "retentionRisk") == Undefined ==> Get(out, "retentionRisk") == Str("UNKNOWN"))
  {
    CreateDonorKeysDistinct();
    FieldOf(env, CreateDonorKeys, CreateDonorRules, input, 8);
    FieldOf(env, CreateDonorKeys, CreateDonorRules, input, 9);
    DefaultChoice(env, DonorStatuses, "ACTIVE", Get(input, "status"));
    DefaultChoice(env, RetentionRisks, "UNKNOWN", Get(input, "retentionRisk"));
  }

  /** Both passwords are required, non-empty strings. */
  lemma DonorPasswords(env: Env, input: Object)
    requires Apply(env, DonorFields, Obj(input)).Some?
    ensures var out := Apply(env, DonorFields, Obj(input)).value.fields;
      && Get(out, "password").Str? && Get(out, "password").s != ""
      && Get(out, "confirmPassword").Str? && Get(out, "confirmPassword").s != ""
  {
    CreateDonorKeysDistinct();
    FieldOf(env, CreateDonorKeys, CreateDonorRules, input, 10);
    FieldOf(env, CreateDonorKeys, CreateDonorRules, input, 11);
  }

  /**
   * A donor passes `createDonorSchema` only with names of 1 to 50
   * characters, a non-empty password equal to its confirmation, and a
   * status and risk from the enums, defaulting to ACTIVE and UNKNOWN.
   */
  lemma CreateDonorAccepted(env: Env, input: Object)
    requires Apply(env, CreateDonor, Obj(input)).Some?
    ensures var out := Apply(env, CreateDonor, Obj(input)).value.fields;
      && Get(out, "firstName").Str? && 1 <= Text.Utf16Length(Get(out, "firstName").s) <= 50
      && Get(out, "lastName").Str? && 1 <= Text.Utf16Length(Get(out, "lastName").s) <= 50
      && Get(out, "password").Str? && Get(out, "password").s != ""
      && Get(out, "password") == Get(out, "confirmPassword")
      && Get(out, "status").Str? && Get(out, "status").s in DonorStatuses
      && Get(out, "retentionRisk").Str? && Get(out, "retentionRisk").s in RetentionRisks
      && (Get(input, "status") == Undefined ==> Get(out, "status") == Str("ACTIVE"))
      && (Get(input, "retentionRisk") == Undefined ==> Get(out, "retentionRisk") == Str("UNKNOWN"))
  {
    RefineOf(env, DonorFields, PasswordsMatch, Obj(input));
    DonorNames(env, input);
    DonorEnums(env, input);
    DonorPasswords(env, input);
  }

  /** Only an object passes `createDonorSchema`; it yields an object with a non-empty password. */
  lemma CreateDonorObject(env: Env, v: Value)
    requires Apply(env, CreateDonor, v).Some?
    ensures v.Obj? && Apply(env, CreateDonor, v).value.Obj?
    ensures Truthy(Get(Apply(env, CreateDonor, v).value.fields, "password"))
  {
    RefineOf(env, DonorFields, PasswordsMatch, v);
    CreateDonorAccepted(env, v.fields);
  }

  /** Each optional contact field is absent, empty, or a string within its bound; it is kept as given. */
  lemma DonorContacts(env: Env, input: Object)
    requires Apply(env, DonorFields, Obj(input)).Some?
    ensures var out := Apply(env, DonorFields, Obj(input)).value.fields;
      && (forall j :: 3 <= j < 8 ==> Get(out, CreateDonorKeys[j]) == Get(input, CreateDonorKeys[j]))
      && (forall j :: 3 <= j < 8 ==> var v := Get(input, CreateDonorKeys[j]);
            v == Undefined || (v.Str? && Text.Utf16Length(v.s) <= ContactBound(j)))
  {
    CreateDonorKeysDistinct();
    forall j | 3 <= j < 8
      ensures Get(Apply(env, DonorFields, Obj(input)).value.fields, CreateDonorKeys[j]) == Get(input, CreateDonorKeys[j])
      ensures var v := Get(input, CreateDonorKeys[j]); v == Undefined || (v.Str? && Text.Utf16Length(v.s) <= ContactBound(j))
    {
      FieldOf(env, CreateDonorKeys, CreateDonorRules, input, j);
      assert CreateDonorRules[j] == OptionalText(ContactBound(j));
      OptionalOrEmpty(env, 0, ContactBound(j), Get(input, CreateDonorKeys[j]));
    }
  }

  /** The length bound of contact field `j`: phone 20, address 200, city 100, state 50, zip code 20. */
  function ContactBound(j: int): nat {
    if j == 4 then 200 else if j == 5 then 100 else if j == 6 then 50 else 20
  }

  /** The contact fields, status and risk accept an absent value. */
  lemma AbsentAccepted(env: Env, j: nat)
    requires 2 <= j < 10
    ensures Apply(env, CreateDonorRules[j], Undefined).Some?
  {
    if j < 8 {
      var r := CreateDonorRules[j];
      assert r.Or? && r.left.Optional?;
      assert Apply(env, r.left, Undefined) == Some(Undefined);
    } else if j == 8 {
      DefaultChoice(env, DonorStatuses, "ACTIVE", Undefined);
    } else {
      DefaultChoice(env, RetentionRisks, "UNKNOWN", Undefined);
    }
  }

  /** Names within bounds and non-empty passwords, with every other field absent, pass the object part. */
  lemma MinimalFieldsAccepted(env: Env, input: Object)
    requires Get(input, "firstName").Str? && 1 <= Text.Utf16Length(Get(input, "firstName").s) <= 50
    requires Get(input, "lastName").Str? && 1 <= Text.Utf16Length(Get(input, "lastName").s) <= 50
    requires Get(input, "password").Str? && Get(input, "password").s != ""
    requires Get(input, "confirmPassword").Str? && Get(input, "confirmPassword").s != ""
    requires forall j :: 2 <= j < 10 ==> Get(input, CreateDonorKeys[j]) == Undefined
    ensures Apply(env, DonorFields, Obj(input)).Some?
  {
    CreateDonorKeysDistinct();
    forall j | 0 <= j < |CreateDonorKeys|
      ensures Apply(env, CreateDonorRules[j], Get(input, CreateDonorKeys[j])).Some?
    {
      var v := Get(input, CreateDonorKeys[j]);
      if 2 <= j < 10 {
        AbsentAccepted(env, j);
      } else if j < 2 {
        assert Apply(env, CreateDonorRules[j], v) == TextRule(false, 1, Some(50), v);
      } else {
        assert Apply(env, CreateDonorRules[j], v) == TextRule(false, 1, None, v);
      }
    }
    ShapeAccepts(env, CreateDonorKeys, CreateDonorRules, input);
  }

  /**
   * Names within bounds and a non-empty password equal to its
   * confirmation are enough: every other field may be left out.
   */
  lemma MinimalDonorAccepted(env: Env, input: Object)
    requires Get(input, "firstName").Str? && 1 <= Text.Utf16Length(Get(input, "firstName").s) <= 50
    requires Get(input, "lastName").Str? && 1 <= Text.Utf16Length(Get(input, "lastName").s) <= 50
    requires Get(input, "password").Str? && Get(input, "password").s != ""
    requires Get(input, "confirmPassword") == Get(input, "password")
    requires forall j :: 2 <= j < 10 ==> Get(input, CreateDonorKeys[j]) == Undefined
    ensures Apply(env, CreateDonor, Obj(input)).Some?
  {
    MinimalFieldsAccepted(env, input);
    CreateDonorKeysDistinct();
    FieldOf(env, CreateDonorKeys, CreateDonorRules, input, 10);
    FieldOf(env, CreateDonorKeys, CreateDonorRules, input, 11);
    RefineAccepts(env, DonorFields, PasswordsMatch, Obj(input));
  }

  lemma DonorListKeysDistinct()
    ensures DistinctFrom(DonorListKeys, 0)
  {
  }

  /** The donor list query's page is at least 1 (default 1) and its limit within 1..100 (default 20). */
  lemma DonorListPaging(env: Env, input: Object)
    requires Apply(env, DonorList, Obj(input)).Some?
    ensures var out := Apply(env, DonorList, Obj(input)).value.fields;
      && Get(out, "page").Num? && 1 <= Get(out, "page").n
      && Get(out, "limit").Num? && 1 <= Get(out, "limit").n <= 100
      && (Get(input, "page") == Undefined ==> Get(out, "page") == Num(1))
      && (Get(input, "limit") == Undefined ==> Get(out, "limit") == Num(20))
  {
    DonorListKeysDistinct();
    FieldOf(env, DonorListKeys, DonorListRules, input, 0);
    FieldOf(env, DonorListKeys, DonorListRules, input, 1);
    DefaultNumber(env, 1, None, 1, Get(input, "page"));
    DefaultNumber(env, 1, Some(100), 20, Get(input, "limit"));
  }

  /** The donor list query sorts by one of six fields (default firstName), asc or desc (default asc). */
  lemma DonorListOrder(env: Env, input: Object)
    requires Apply(env, DonorList, Obj(input)).Some?
    ensures var out := Apply(env, DonorList, Obj(input)).value.fields;
      && Get(out, "sortBy").Str? && Get(out, "sortBy").s in DonorSortFields
      && Get(out, "sortOrder").Str? && Get(out, "sortOrder").s in ["asc", "desc"]
      && (Get(input, "sortBy") == Undefined ==> Get(out, "sortBy") == Str("firstName"))
      && (Get(input, "sortOrder") == Undefined ==> Get(out, "sortOrder") == Str("asc"))
  {
    DonorListKeysDistinct();
    FieldOf(env, DonorListKeys, DonorListRules, input, 5);
    FieldOf(env, DonorListKeys, DonorListRules, input, 6);
    DefaultChoice(env, DonorSortFields, "firstName", Get(input, "sortBy"));
    DefaultChoice(env, ["asc", "desc"], "asc", Get(input, "sortOrder"));
  }
}
