/**
 * The segment input schemas: the number and date ranges with their
 * refinements, the rule document, the create schema and the list query.
 */
module SegmentSchema {
  import opened Js
  import opened Text
  import opened Zod
  import DonorSchema

  /** `z.coerce.number().nonnegative().optional()` */
  const Bound: Rule := Optional(Number(true, Some(0), None))

  const RangeKeys: seq<string> := ["min", "max"]

  /** `numberRangeSchema` */
  const NumberRange: Rule := Refine(Shape(RangeKeys, [Bound, Bound]), MinAtMostMax)

  const DateKeys: seq<string> := ["from", "to"]

  /** `dateRangeSchema` */
  const DateRange: Rule := Refine(Shape(DateKeys, [Optional(Text(false, 0, None)), Optional(Text(false, 0, None))]), FromNotAfterTo)

  const RuleKeys: seq<string> :=
    ["donorStatus", "retentionRisk", "lastGiftDateRange", "totalGiftAmountRange", "giftCountRange", "tags"]

  const RuleRules: seq<Rule> :=
    [Optional(ArrayOf(Choice(DonorSchema.DonorStatuses))), Optional(ArrayOf(Choice(DonorSchema.RetentionRisks))),
     Optional(DateRange), Optional(NumberRange), Optional(NumberRange), Optional(ArrayOf(Text(true, 1, None)))]

  /** `rulesSchema`: every key optional. */
  const Rules: Rule := Shape(RuleKeys, RuleRules)

  const CreateSegmentKeys: seq<string> := ["name", "description", "rules"]

  const CreateSegmentRules: seq<Rule> :=
    [Text(false, 1, Some(120)), Or(Optional(Text(false, 0, Some(500))), Literal("")), Optional(Rules)]

  /** `createSegmentSchema` */
  const CreateSegment: Rule := Shape(CreateSegmentKeys, CreateSegmentRules)

  const SegmentListKeys: seq<string> := ["page", "limit", "search"]

  const SegmentListRules: seq<Rule> :=
    [Default(Number(true, Some(1), None), Num(1)), Default(Number(true, Some(1), Some(100)), Num(50)),
     Optional(Text(false, 0, None))]

  /** `segmentListQuerySchema` */
  const SegmentList: Rule := Shape(SegmentListKeys, SegmentListRules)

  /** A bound is absent, or coerces to a number that is not negative. */
  predicate BoundOk(v: Value) {
    v == Undefined || (NumberOf(v).Some? && NumberOf(v).value >= 0)
  }

  /** The parsed value of an accepted bound. */
  function BoundValue(v: Value): Value
    requires BoundOk(v)
  {
    if v == Undefined then Undefined else Num(NumberOf(v).value)
  }

  lemma BoundRule(env: Env, v: Value)
    ensures Apply(env, Bound, v).Some? <==> BoundOk(v)
    ensures BoundOk(v) ==> Apply(env, Bound, v) == Some(BoundValue(v))
  {
    if v != Undefined {
      assert Apply(env, Bound, v) == NumberRule(true, Some(0), None, v);
    }
  }

  /** The object part of a number range: both bounds checked, nothing else kept. */
  lemma RangeShape(env: Env, o: Object)
    ensures Apply(env, Shape(RangeKeys, [Bound, Bound]), Obj(o)).Some? <==> BoundOk(Get(o, "min")) && BoundOk(Get(o, "max"))
    ensures Apply(env, Shape(RangeKeys, [Bound, Bound]), Obj(o)).Some? ==>
      var out := Apply(env, Shape(RangeKeys, [Bound, Bound]), Obj(o)).value.fields;
      && Get(out, "min") == BoundValue(Get(o, "min"))
      && Get(out, "max") == BoundValue(Get(o, "max"))
      && (forall k :: k in out ==> k in RangeKeys)
  {
    ParseFieldsSpec(env, RangeKeys, [Bound, Bound], o, 0);
    BoundRule(env, Get(o, "min"));
    BoundRule(env, Get(o, "max"));
  }

  /**
   * A number range is accepted exactly when each present bound is a
   * number of at least 0 and, with both present, min is at most max; the
   * parsed range holds the coerced bounds.
   */
  lemma NumberRangeAccepts(env: Env, o: Object)
    ensures Apply(env, NumberRange, Obj(o)).Some? <==>
      var min := Get(o, "min");
      var max := Get(o, "max");
      && BoundOk(min) && BoundOk(max)
      && (min != Undefined && max != Undefined ==> NumberOf(min).value <= NumberOf(max).value)
    ensures Apply(env, NumberRange, Obj(o)).Some? ==>
      var out := Apply(env, NumberRange, Obj(o)).value.fields;
      && Get(out, "min") == BoundValue(Get(o, "min"))
      && Get(out, "max") == BoundValue(Get(o, "max"))
      && (forall k :: k in out ==> k in RangeKeys)
  {
    RefineSpec(env, Shape(RangeKeys, [Bound, Bound]), MinAtMostMax, Obj(o));
    RangeShape(env, o);
  }

  /** The object part of a date range: each end absent or a string, kept as given. */
  lemma DateShape(env: Env, o: Object)
    ensures var text := Optional(Text(false, 0, None));
      var r := Apply(env, Shape(DateKeys, [text, text]), Obj(o));
      && (r.Some? <==> (Get(o, "from") == Undefined || Get(o, "from").Str?) && (Get(o, "to") == Undefined || Get(o, "to").Str?))
      && (r.Some? ==> Get(r.value.fields, "from") == Get(o, "from") && Get(r.value.fields, "to") == Get(o, "to")
                      && (forall k :: k in r.value.fields ==> k in DateKeys))
  {
    var text := Optional(Text(false, 0, None));
    ParseFieldsSpec(env, DateKeys, [text, text], o, 0);
    var from := Get(o, "from");
    var to := Get(o, "to");
    if from != Undefined {
      assert Apply(env, text, from) == TextRule(false, 0, None, from);
    }
    if to != Undefined {
      assert Apply(env, text, to) == TextRule(false, 0, None, to);
    }
  }

  /**
   * A date range is accepted exactly when each present end is a string
   * and, when both are non-empty, both are valid dates and `from` is not
   * after `to`; the parsed range is the given one.
   */
  lemma DateRangeAccepts(env: Env, o: Object)
    ensures Apply(env, DateRange, Obj(o)).Some? <==>
      var from := Get(o, "from");
      var to := Get(o, "to");
      && (from == Undefined || from.Str?) && (to == Undefined || to.Str?)
      && (Truthy(from) && Truthy(to) ==>
            env.dateOf(from.s).Some? && env.dateOf(to.s).Some? && env.dateOf(from.s).value <= env.dateOf(to.s).value)
    ensures Apply(env, DateRange, Obj(o)).Some? ==>
      var out := Apply(env, DateRange, Obj(o)).value.fields;
      Get(out, "from") == Get(o, "from") && Get(out, "to") == Get(o, "to") && (forall k :: k in out ==> k in DateKeys)
  {
    var text := Optional(Text(false, 0, None));
    RefineSpec(env, Shape(DateKeys, [text, text]), FromNotAfterTo, Obj(o));
    DateShape(env, o);
  }

  lemma RuleKeysDistinct()
    ensures DistinctFrom(RuleKeys, 0)
  {
  }

  /** Every listed status of an accepted rule document is a donor status. */
  lemma RuleStatusesAccepted(env: Env, o: Object, j: nat)
    requires Apply(env, Rules, Obj(o)).Some?
    ensures var s := Get(o, "donorStatus");
      s == Undefined || (s.Arr? && (j < |s.items| ==> s.items[j].Str? && s.items[j].s in DonorSchema.DonorStatuses))
  {
    RuleKeysDistinct();
    FieldOf(env, RuleKeys, RuleRules, o, 0);
    var s := Get(o, "donorStatus");
    if s != Undefined {
      ElementOf(env, Choice(DonorSchema.DonorStatuses), s, j);
    }
  }

  /** Every listed risk of an accepted rule document is a retention risk. */
  lemma RuleRisksAccepted(env: Env, o: Object, j: nat)
    requires Apply(env, Rules, Obj(o)).Some?
    ensures var r := Get(o, "retentionRisk");
      r == Undefined || (r.Arr? && (j < |r.items| ==> r.items[j].Str? && r.items[j].s in DonorSchema.RetentionRisks))
  {
    RuleKeysDistinct();
    FieldOf(env, RuleKeys, RuleRules, o, 1);
    var r := Get(o, "retentionRisk");
    if r != Undefined {
      ElementOf(env, Choice(DonorSchema.RetentionRisks), r, j);
    }
  }

  /** Every tag of an accepted rule document is a string that is not blank; the parsed tag is trimmed. */
  lemma RuleTagsAccepted(env: Env, o: Object, j: nat)
    requires Apply(env, Rules, Obj(o)).Some?
    ensures var t := Get(o, "tags");
      t == Undefined || (t.Arr? && (j < |t.items| ==> t.items[j].Str? && Trim(t.items[j].s) != ""))
    ensures var t := Get(o, "tags");
      var out := Apply(env, Rules, Obj(o)).value.fields;
      t.Arr? && j < |t.items| ==>
        Get(out, "tags").Arr? && |Get(out, "tags").items| == |t.items| && Get(out, "tags").items[j] == Str(Trim(t.items[j].s))
  {
    RuleKeysDistinct();
    FieldOf(env, RuleKeys, RuleRules, o, 5);
    var t := Get(o, "tags");
    if t != Undefined {
      ElementOf(env, Text(true, 1, None), t, j);
      if t.Arr? && j < |t.items| {
        assert Apply(env, Text(true, 1, None), t.items[j]) == TextRule(true, 1, None, t.items[j]);
      }
    }
  }

  lemma CreateSegmentKeysDistinct()
    ensures DistinctFrom(CreateSegmentKeys, 0)
  {
  }

  /**
   * An accepted segment has a name of 1 to 120 characters and a
   * description that is absent, empty or at most 500 characters; its rule
   * document may be left out.
   */
  lemma SegmentAccepted(env: Env, input: Object)
    requires Apply(env, CreateSegment, Obj(input)).Some?
    ensures var out := Apply(env, CreateSegment, Obj(input)).value.fields;
      && Get(out, "name").Str? && 1 <= Utf16Length(Get(out, "name").s) <= 120
      && Get(out, "description") == Get(input, "description")
    ensures var d := Get(input, "description"); d == Undefined || (d.Str? && Utf16Length(d.s) <= 500)
  {
    CreateSegmentKeysDistinct();
    FieldOf(env, CreateSegmentKeys, CreateSegmentRules, input, 0);
    FieldOf(env, CreateSegmentKeys, CreateSegmentRules, input, 1);
    OptionalOrEmpty(env, 0, 500, Get(input, "description"));
  }

  /**
   * Only an object passes `createSegmentSchema`; its name is kept as given,
   * and its rule document is absent exactly when the input has none and is
   * otherwise the object `rulesSchema` makes of the given one.
   */
  lemma SegmentStored(env: Env, v: Value)
    requires Apply(env, CreateSegment, v).Some?
    ensures v.Obj? && Apply(env, CreateSegment, v).value.Obj?
    ensures var out := Apply(env, CreateSegment, v).value.fields;
      && Get(out, "name") == Get(v.fields, "name")
      && Get(out, "name").Str? && 1 <= Utf16Length(Get(out, "name").s) <= 120
      && Get(out, "description") == Get(v.fields, "description")
      && (Get(out, "description") == Undefined || Get(out, "description").Str?)
      && (Get(out, "rules") == Undefined <==> Get(v.fields, "rules") == Undefined)
      && (Get(out, "rules") == Undefined || Get(out, "rules").Obj?)
      && (Get(v.fields, "rules") != Undefined ==> Apply(env, Rules, Get(v.fields, "rules")) == Some(Get(out, "rules")))
  {
    ShapeObject(env, CreateSegmentKeys, CreateSegmentRules, v);
    SegmentAccepted(env, v.fields);
    var out := Apply(env, CreateSegment, v).value.fields;
    assert Get(out, "name") == Get(v.fields, "name") by {
      FieldOf(env, CreateSegmentKeys, CreateSegmentRules, v.fields, 0);
    }
    var rules := Get(v.fields, "rules");
    assert Get(out, "rules") == Apply(env, Optional(Rules), rules).value by {
      FieldOf(env, CreateSegmentKeys, CreateSegmentRules, v.fields, 2);
    }
    if rules != Undefined && Apply(env, Rules, rules).Some? {
      ShapeObject(env, RuleKeys, RuleRules, rules);
    }
  }

  /** A segment with a valid name, no description and no rules is accepted. */
  lemma SegmentWithoutRulesAccepted(env: Env, input: Object)
    requires Get(input, "name").Str? && 1 <= Utf16Length(Get(input, "name").s) <= 120
    requires Get(input, "description") == Undefined && Get(input, "rules") == Undefined
    ensures Apply(env, CreateSegment, Obj(input)).Some?
  {
    CreateSegmentKeysDistinct();
    forall j | 0 <= j < |CreateSegmentKeys|
      ensures Apply(env, CreateSegmentRules[j], Get(input, CreateSegmentKeys[j])).Some?
    {
      if j == 0 {
        assert Apply(env, CreateSegmentRules[0], Get(input, "name")) == TextRule(false, 1, Some(120), Get(input, "name"));
      } else if j == 1 {
        OptionalOrEmpty(env, 0, 500, Undefined);
      }
    }
    ShapeAccepts(env, CreateSegmentKeys, CreateSegmentRules, input);
  }

  lemma SegmentListKeysDistinct()
    ensures DistinctFrom(SegmentListKeys, 0)
  {
  }

  /** The segment list query's page is at least 1 (default 1) and its limit within 1..100 (default 50). */
  lemma SegmentListPaging(env: Env, input: Object)
    requires Apply(env, SegmentList, Obj(input)).Some?
    ensures var out := Apply(env, SegmentList, Obj(input)).value.fields;
      && Get(out, "page").Num? && 1 <= Get(out, "page").n
      && Get(out, "limit").Num? && 1 <= Get(out, "limit").n <= 100
      && (Get(input, "page") == Undefined ==> Get(out, "page") == Num(1))
      && (Get(input, "limit") == Undefined ==> Get(out, "limit") == Num(50))
      && (Get(input, "page") != Undefined ==> NumberOf(Get(input, "page")) == Some(Get(out, "page").n))
      && (Get(input, "limit") != Undefined ==> NumberOf(Get(input, "limit")) == Some(Get(out, "limit").n))
  {
    SegmentListKeysDistinct();
    FieldOf(env, SegmentListKeys, SegmentListRules, input, 0);
    FieldOf(env, SegmentListKeys, SegmentListRules, input, 1);
    DefaultNumber(env, 1, None, 1, Get(input, "page"));
    DefaultNumber(env, 1, Some(100), 50, Get(input, "limit"));
  }

  /** The search term of the list query is passed through: absent or a string. */
  lemma SegmentListSearch(env: Env, input: Object)
    requires Apply(env, SegmentList, Obj(input)).Some?
    ensures var search := Get(Apply(env, SegmentList, Obj(input)).value.fields, "search");
      && search == Get(input, "search")
      && (search == Undefined || search.Str?)
  {
    SegmentListKeysDistinct();
    FieldOf(env, SegmentListKeys, SegmentListRules, input, 2);
  }
}
