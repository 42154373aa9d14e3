/**
 * The campaign input schemas.  The optional goal and dates of
 * `createCampaignSchema` are meant to treat a blank form field as left out;
 * as written they reject it (see `BlankGoalRejected`).  `CreateCampaign`
 * is the schema as intended, `CreateCampaignAsWritten` the schema as the
 * code states it.
 */
module CampaignSchema {
  import opened Js
  import opened Zod
  import Text
  import CampaignsApi

  const CampaignStatuses: seq<string> := ["DRAFT", "ACTIVE", "COMPLETED", "ARCHIVED"]

  /** The preprocess step runs `emptyToUndefined` before its inner rule. */
  lemma PreprocessIsEmptyToUndefined(env: Env, inner: Rule, v: Value)
    ensures Apply(env, EmptyToUndefinedThen(inner), v) == Apply(env, inner, EmptyToUndefined(v))
  {
  }

  /** `z.preprocess(emptyToUndefined, z.coerce.number().positive()).optional()`, as written. */
  const AsWrittenGoal: Rule := Optional(EmptyToUndefinedThen(Number(true, Some(1), None)))

  /** `z.preprocess(emptyToUndefined, z.coerce.date()).optional()`, as written. */
  const AsWrittenDate: Rule := Optional(EmptyToUndefinedThen(CoerceDate))

  /** The goal as intended: a blank field is mapped to `undefined` and then accepted as left out. */
  const Goal: Rule := EmptyToUndefinedThen(Optional(Number(true, Some(1), None)))

  /** A start or end date as intended. */
  const DateField: Rule := EmptyToUndefinedThen(Optional(CoerceDate))

  const CreateCampaignKeys: seq<string> := ["name", "description", "goal", "startDate", "endDate", "type", "status"]

  function CampaignRules(goal: Rule, date: Rule): seq<Rule> {
    [Text(false, 1, Some(100)), Or(Optional(Text(false, 0, Some(1000))), Literal("")), goal, date, date,
     Or(Optional(Text(false, 0, Some(50))), Literal("")), Default(Choice(CampaignStatuses), Str("DRAFT"))]
  }

  /** `createCampaignSchema` as the code states it. */
  const CreateCampaignAsWritten: Rule := Shape(CreateCampaignKeys, CampaignRules(AsWrittenGoal, AsWrittenDate))

  /** `createCampaignSchema` with the blank-field mapping the code intends. */
  const CreateCampaign: Rule := Shape(CreateCampaignKeys, CampaignRules(Goal, DateField))

  const CampaignSortFields: seq<string> := ["name", "startDate", "endDate", "goal", "createdAt"]

  const CampaignListKeys: seq<string> := ["page", "limit", "search", "status", "sortBy", "sortOrder"]

  const CampaignListRules: seq<Rule> :=
    [Default(Number(true, Some(1), None), Num(1)), Default(Number(true, Some(1), Some(100)), Num(20)),
     Optional(Text(false, 0, None)), Optional(Choice(CampaignStatuses)),
     Default(Choice(CampaignSortFields), Str("createdAt")), Default(Choice(["asc", "desc"]), Str("desc"))]

  /** `campaignListQuerySchema` */
  const CampaignList: Rule := Shape(CampaignListKeys, CampaignListRules)

  lemma CreateCampaignKeysDistinct()
    ensures DistinctFrom(CreateCampaignKeys, 0)
  {
  }

  lemma CampaignListKeysDistinct()
    ensures DistinctFrom(CampaignListKeys, 0)
  {
  }

  /**
   * As written, a blank or null goal or date is rejected: `.optional()`
   * only lets `undefined` through, and the `undefined` the preprocess step
   * makes of `''` is then coerced to NaN or an Invalid Date.
   */
  lemma BlankGoalRejected(env: Env)
    ensures Apply(env, AsWrittenGoal, Str("")).None?
    ensures Apply(env, AsWrittenGoal, Null).None?
    ensures Apply(env, AsWrittenDate, Str("")).None?
    ensures Apply(env, AsWrittenDate, Null).None?
  {
    assert Apply(env, AsWrittenGoal, Str("")) == Apply(env, Number(true, Some(1), None), Undefined);
    assert Apply(env, AsWrittenGoal, Null) == Apply(env, Number(true, Some(1), None), Undefined);
    assert Apply(env, AsWrittenDate, Str("")) == DateRule(env, Undefined);
    assert Apply(env, AsWrittenDate, Null) == DateRule(env, Undefined);
  }

  /** So the campaign form's own starting values (goal and dates `''`) never pass the schema as written. */
  lemma BlankGoalRejectsCampaign(env: Env, input: Object)
    requires Get(input, "goal") == Str("")
    ensures Apply(env, CreateCampaignAsWritten, Obj(input)).None?
  {
    if Apply(env, CreateCampaignAsWritten, Obj(input)).Some? {
      CreateCampaignKeysDistinct();
      FieldOf(env, CreateCampaignKeys, CampaignRules(AsWrittenGoal, AsWrittenDate), input, 2);
      BlankGoalRejected(env);
      assert false;
    }
  }

  /** The corrected goal: blank, null and absent mean no goal; anything else must be a positive number. */
  lemma GoalAccepts(env: Env, v: Value)
    ensures EmptyToUndefined(v) == Undefined ==> Apply(env, Goal, v) == Some(Undefined)
    ensures EmptyToUndefined(v) != Undefined ==>
      (Apply(env, Goal, v).Some? <==> NumberOf(v).Some? && NumberOf(v).value >= 1)
    ensures Apply(env, Goal, v).Some? && EmptyToUndefined(v) != Undefined ==>
      Apply(env, Goal, v) == Some(Num(NumberOf(v).value))
  {
    assert Apply(env, Goal, v) == Apply(env, Optional(Number(true, Some(1), None)), EmptyToUndefined(v));
  }

  /** The corrected date: blank, null and absent mean no date; anything else must be a valid date. */
  lemma DateAccepts(env: Env, v: Value)
    ensures EmptyToUndefined(v) == Undefined ==> Apply(env, DateField, v) == Some(Undefined)
    ensures EmptyToUndefined(v) != Undefined ==>
      (Apply(env, DateField, v).Some? <==> DateOf(env, v).Some?)
  {
    assert Apply(env, DateField, v) == Apply(env, Optional(CoerceDate), EmptyToUndefined(v));
  }

  /** The correction changes nothing but the treatment of `''` and `null`. */
  lemma CorrectionOnlyForBlanks(env: Env, v: Value)
    requires v != Str("") && v != Null
    ensures Apply(env, Goal, v) == Apply(env, AsWrittenGoal, v)
    ensures Apply(env, DateField, v) == Apply(env, AsWrittenDate, v)
  {
  }

  /** Under the corrected schema the form's starting values pass once a name of 1 to 100 characters is given. */
  lemma BlankFormAccepted(env: Env, name: string)
    requires 1 <= Text.Utf16Length(name) <= 100
    ensures var input := map["name" := Str(name), "description" := Str(""), "goal" := Str(""),
                             "startDate" := Str(""), "endDate" := Str(""), "type" := Str(""),
                             "status" := Str("DRAFT")];
      Apply(env, CreateCampaign, Obj(input)).Some?
  {
    var input := map["name" := Str(name), "description" := Str(""), "goal" := Str(""),
                     "startDate" := Str(""), "endDate" := Str(""), "type" := Str(""),
                     "status" := Str("DRAFT")];
    var rules := CampaignRules(Goal, DateField);
    CreateCampaignKeysDistinct();
    GoalAccepts(env, Str(""));
    DateAccepts(env, Str(""));
    forall j | 0 <= j < |CreateCampaignKeys|
      ensures Apply(env, rules[j], Get(input, CreateCampaignKeys[j])).Some?
    {
      if j == 0 {
        assert Apply(env, rules[0], Str(name)) == TextRule(false, 1, Some(100), Str(name));
      } else if j == 1 || j == 5 {
        assert Get(input, CreateCampaignKeys[j]) == Str("");
      } else if j == 6 {
        DefaultChoice(env, CampaignStatuses, "DRAFT", Str("DRAFT"));
      }
    }
    ShapeAccepts(env, CreateCampaignKeys, rules, input);
  }

  /**
   * Whatever the schema as written accepts, the corrected schema accepts
   * with the same output: the two differ only on blank goals and dates,
   * which the schema as written rejects.
   */
  lemma AsWrittenAgrees(env: Env, input: Object)
    requires Apply(env, CreateCampaignAsWritten, Obj(input)).Some?
    ensures Apply(env, CreateCampaign, Obj(input)) == Apply(env, CreateCampaignAsWritten, Obj(input))
  {
    var written := CampaignRules(AsWrittenGoal, AsWrittenDate);
    var intended := CampaignRules(Goal, DateField);
    CreateCampaignKeysDistinct();
    BlankGoalRejected(env);
    forall j | 0 <= j < |CreateCampaignKeys|
      ensures Apply(env, intended[j], Get(input, CreateCampaignKeys[j]))
           == Apply(env, written[j], Get(input, CreateCampaignKeys[j]))
    {
      FieldOf(env, CreateCampaignKeys, written, input, j);
      if 2 <= j <= 4 {
        CorrectionOnlyForBlanks(env, Get(input, CreateCampaignKeys[j]));
      }
    }
    ParseFieldsAgree(env, CreateCampaignKeys, intended, written, input, 0);
  }

  /**
   * An accepted campaign, under either schema, has a name of 1 to 100
   * characters and a status from the enum, DRAFT when left out.
   */
  lemma CampaignAccepted(env: Env, schema: Rule, input: Object)
    requires schema == CreateCampaign || schema == CreateCampaignAsWritten
    requires Apply(env, schema, Obj(input)).Some?
    ensures var out := Apply(env, schema, Obj(input)).value.fields;
      && Get(out, "name").Str? && 1 <= Text.Utf16Length(Get(out, "name").s) <= 100
      && Get(out, "status").Str? && Get(out, "status").s in CampaignStatuses
      && (Get(input, "status") == Undefined ==> Get(out, "status") == Str("DRAFT"))
  {
    if schema == CreateCampaignAsWritten {
      AsWrittenAgrees(env, input);
    }
    var rules := CampaignRules(Goal, DateField);
    CreateCampaignKeysDistinct();
    FieldOf(env, CreateCampaignKeys, rules, input, 0);
    FieldOf(env, CreateCampaignKeys, rules, input, 6);
    DefaultChoice(env, CampaignStatuses, "DRAFT", Get(input, "status"));
  }

  /**
   * An accepted campaign's goal, under either schema, is absent or the
   * positive number the input coerces to.
   */
  lemma CampaignGoal(env: Env, schema: Rule, input: Object)
    requires schema == CreateCampaign || schema == CreateCampaignAsWritten
    requires Apply(env, schema, Obj(input)).Some?
    ensures var out := Apply(env, schema, Obj(input)).value.fields;
      var g := Get(input, "goal");
      && (EmptyToUndefined(g) == Undefined ==> Get(out, "goal") == Undefined)
      && (EmptyToUndefined(g) != Undefined ==>
            NumberOf(g).Some? && NumberOf(g).value > 0 && Get(out, "goal") == Num(NumberOf(g).value))
  {
    if schema == CreateCampaignAsWritten {
      AsWrittenAgrees(env, input);
    }
    CreateCampaignKeysDistinct();
    FieldOf(env, CreateCampaignKeys, CampaignRules(Goal, DateField), input, 2);
    GoalAccepts(env, Get(input, "goal"));
  }

  /**
   * Under either schema the description is at most 1000 characters and the
   * type at most 50, or either is empty or absent.
   */
  lemma CampaignFreeText(env: Env, schema: Rule, input: Object)
    requires schema == CreateCampaign || schema == CreateCampaignAsWritten
    requires Apply(env, schema, Obj(input)).Some?
    ensures var d := Get(input, "description"); d == Undefined || (d.Str? && Text.Utf16Length(d.s) <= 1000)
    ensures var t := Get(input, "type"); t == Undefined || (t.Str? && Text.Utf16Length(t.s) <= 50)
  {
    if schema == CreateCampaignAsWritten {
      AsWrittenAgrees(env, input);
    }
    var rules := CampaignRules(Goal, DateField);
    CreateCampaignKeysDistinct();
    FieldOf(env, CreateCampaignKeys, rules, input, 1);
    FieldOf(env, CreateCampaignKeys, rules, input, 5);
    OptionalOrEmpty(env, 0, 1000, Get(input, "description"));
    OptionalOrEmpty(env, 0, 50, Get(input, "type"));
  }

  /** The campaign list query's limit is within 1..100 (default 20) and its page at least 1 (default 1). */
  lemma CampaignListPaging(env: Env, input: Object)
    requires Apply(env, CampaignList, Obj(input)).Some?
    ensures var out := Apply(env, CampaignList, Obj(input)).value.fields;
      && Get(out, "page").Num? && 1 <= Get(out, "page").n
      && Get(out, "limit").Num? && 1 <= Get(out, "limit").n <= 100
      && (Get(input, "page") == Undefined ==> Get(out, "page") == Num(1))
      && (Get(input, "limit") == Undefined ==> Get(out, "limit") == Num(20))
  {
    CampaignListKeysDistinct();
    FieldOf(env, CampaignListKeys, CampaignListRules, input, 0);
    FieldOf(env, CampaignListKeys, CampaignListRules, input, 1);
    DefaultNumber(env, 1, None, 1, Get(input, "page"));
    DefaultNumber(env, 1, Some(100), 20, Get(input, "limit"));
  }

  /**
   * The campaign list sorts by one of five fields (default createdAt),
   * asc or desc (default desc); the five are the columns the query
   * builder keeps, so a parsed sortBy never falls back.
   */
  lemma CampaignListOrder(env: Env, input: Object)
    requires Apply(env, CampaignList, Obj(input)).Some?
    ensures var out := Apply(env, CampaignList, Obj(input)).value.fields;
      && Get(out, "sortBy").Str? && Get(out, "sortBy").s in CampaignSortFields
      && Get(out, "sortOrder").Str? && Get(out, "sortOrder").s in ["asc", "desc"]
      && (Get(input, "sortBy") == Undefined ==> Get(out, "sortBy") == Str("createdAt"))
      && (Get(input, "sortOrder") == Undefined ==> Get(out, "sortOrder") == Str("desc"))
      && CampaignsApi.OrderFor(Get(out, "sortBy").s, Get(out, "sortOrder").s).column == Get(out, "sortBy").s
  {
    CampaignListKeysDistinct();
    FieldOf(env, CampaignListKeys, CampaignListRules, input, 4);
    FieldOf(env, CampaignListKeys, CampaignListRules, input, 5);
    DefaultChoice(env, CampaignSortFields, "createdAt", Get(input, "sortBy"));
    DefaultChoice(env, ["asc", "desc"], "desc", Get(input, "sortOrder"));
  }
}
