/**
 * The segment form: `buildRules`, which turns the flat form fields into a
 * rule document, the read-back of a stored document into the form's
 * starting values, the tag normalisation, and the submitted payload.
 *
 * A string field of the parsed form is held as `""` for both `''` and a
 * missing value: `buildRules` only tests those fields for truthiness.
 * A number field is `None` when missing and otherwise the number that
 * `numberField` produced.
 */
module SegmentForm {
  import opened Js
  import opened Text
  import opened Zod
  import DonorSchema
  import SegmentSchema

  /** `numberField`: `''` and `null` are left out, anything else must coerce to a number of at least 0. */
  const NumberField: Rule := EmptyToUndefinedThen(Optional(Number(true, Some(0), None)))

  lemma NumberFieldAccepts(env: Env, v: Value)
    ensures EmptyToUndefined(v) == Undefined ==> Apply(env, NumberField, v) == Some(Undefined)
    ensures EmptyToUndefined(v) != Undefined ==>
      (Apply(env, NumberField, v).Some? <==> NumberOf(v).Some? && NumberOf(v).value >= 0)
    ensures Apply(env, NumberField, v).Some? && EmptyToUndefined(v) != Undefined ==>
      Apply(env, NumberField, v) == Some(Num(NumberOf(v).value))
  {
    assert Apply(env, NumberField, v) == Apply(env, Optional(Number(true, Some(0), None)), EmptyToUndefined(v));
  }

  datatype FormData = FormData(
    donorStatus: string, retentionRisk: string,
    lastGiftFrom: string, lastGiftTo: string,
    minTotalAmount: Option<int>, maxTotalAmount: Option<int>,
    minGiftCount: Option<int>, maxGiftCount: Option<int>,
    tags: string)

  /** What the form's own field checks let through: enum values or blank, and bounds of at least 0. */
  predicate ValidForm(data: FormData) {
    && (data.donorStatus == "" || data.donorStatus in DonorSchema.DonorStatuses)
    && (data.retentionRisk == "" || data.retentionRisk in DonorSchema.RetentionRisks)
    && (data.minTotalAmount.Some? ==> data.minTotalAmount.value >= 0)
    && (data.maxTotalAmount.Some? ==> data.maxTotalAmount.value >= 0)
    && (data.minGiftCount.Some? ==> data.minGiftCount.value >= 0)
    && (data.maxGiftCount.Some? ==> data.maxGiftCount.value >= 0)
  }

  // ---- tags -----------------------------------------------------------

  function TrimAll(ws: seq<string>): (r: seq<string>)
    ensures |r| == |ws|
  {
    if ws == [] then [] else [Trim(ws[0])] + TrimAll(ws[1..])
  }

  /** `ws.map((tag) => tag.trim())` trims every piece in place. */
  lemma {:induction false} TrimAllAt(ws: seq<string>)
    ensures forall i :: 0 <= i < |ws| ==> TrimAll(ws)[i] == Trim(ws[i])
  {
    if ws != [] {
      TrimAllAt(ws[1..]);
    }
  }

  /** `.filter(Boolean)` on strings: the empty ones are dropped, the order is kept. */
  function DropEmpty(ws: seq<string>): (r: seq<string>)
    ensures |r| <= |ws|
    ensures forall i :: 0 <= i < |r| ==> r[i] != ""
  {
    if ws == [] then []
    else if ws[0] == "" then DropEmpty(ws[1..])
    else [ws[0]] + DropEmpty(ws[1..])
  }

  /** The filter keeps only pieces of its input. */
  lemma {:induction false} DropEmptyKeeps(ws: seq<string>)
    ensures forall i :: 0 <= i < |DropEmpty(ws)| ==> DropEmpty(ws)[i] in ws
  {
    if ws != [] {
      DropEmptyKeeps(ws[1..]);
    }
  }

  /** Without empty pieces the filter changes nothing. */
  lemma {:induction false} DropEmptyNone(ws: seq<string>)
    requires forall i :: 0 <= i < |ws| ==> ws[i] != ""
    ensures DropEmpty(ws) == ws
  {
    if ws != [] {
      DropEmptyNone(ws[1..]);
      assert [ws[0]] + ws[1..] == ws;
    }
  }

  /** `tags.split(',').map((tag) => tag.trim()).filter(Boolean)` */
  function NormalizeTags(s: string): seq<string> {
    DropEmpty(TrimAll(Split(s, ',')))
  }

  /** A normalised tag is not empty, has no surrounding white space and holds no comma. */
  predicate CleanTag(t: string) {
    t != "" && Trimmed(t) && ',' !in t
  }

  lemma NormalizedTagsClean(s: string)
    ensures forall i :: 0 <= i < |NormalizeTags(s)| ==> CleanTag(NormalizeTags(s)[i])
  {
    var pieces := Split(s, ',');
    var trimmed := TrimAll(pieces);
    TrimAllAt(pieces);
    DropEmptyKeeps(trimmed);
    forall i | 0 <= i < |trimmed|
      ensures ',' !in trimmed[i] && Trimmed(trimmed[i])
    {
      TrimKeepsOut(pieces[i], ',');
    }
  }

  /** The pieces of `Join(ws, ", ")` split at the commas, before trimming. */
  function Padded(ws: seq<string>): seq<string>
    requires |ws| >= 1
  {
    [ws[0]] + PadAll(ws[1..], " ")
  }

  lemma {:induction false} PaddedSplit(ws: seq<string>)
    requires |ws| >= 1
    requires forall i :: 0 <= i < |ws| ==> CleanTag(ws[i])
    ensures Split(Join(ws, ", "), ',') == Padded(ws)
  {
    assert ", " == [','] + " ";
    JoinPadded(ws, ',', " ");
    var p := Padded(ws);
    forall i | 0 <= i < |p|
      ensures ',' !in p[i]
    {
      if i > 0 {
        assert p[i] == " " + ws[i];
      }
    }
    SplitJoin(p, ',');
  }

  lemma TrimSpaced(w: string)
    requires Trimmed(w)
    ensures Trim(" " + w) == w
  {
    assert AllSpace(" ");
    TrimPadded(" ", w);
  }

  lemma PieceTrim(ws: seq<string>, i: nat)
    requires i < |ws|
    requires forall i :: 0 <= i < |ws| ==> CleanTag(ws[i])
    ensures |Padded(ws)| == |ws| && Trim(Padded(ws)[i]) == ws[i]
  {
    var p := Padded(ws);
    if i == 0 {
      TrimOfTrimmed(ws[0]);
    } else {
      assert p[i] == " " + ws[i];
      TrimSpaced(ws[i]);
    }
  }

  lemma {:induction false} PaddedTrim(ws: seq<string>)
    requires |ws| >= 1
    requires forall i :: 0 <= i < |ws| ==> CleanTag(ws[i])
    ensures TrimAll(Padded(ws)) == ws
  {
    var p := Padded(ws);
    var t := TrimAll(p);
    TrimAllAt(p);
    forall i | 0 <= i < |ws|
      ensures t[i] == ws[i]
    {
      PieceTrim(ws, i);
    }
  }

  /** Joining clean tags with `', '` and normalising again gives the same tags. */
  lemma NormalizeJoined(ws: seq<string>)
    requires forall i :: 0 <= i < |ws| ==> CleanTag(ws[i])
    ensures NormalizeTags(Join(ws, ", ")) == ws
  {
    if ws == [] {
      TrimOfTrimmed("");
      assert TrimAll([""]) == [""];
    } else {
      PaddedSplit(ws);
      PaddedTrim(ws);
      DropEmptyNone(ws);
    }
  }

  /** Tag normalisation is idempotent through the `', '`-joined starting value. */
  lemma TagsIdempotent(s: string)
    ensures NormalizeTags(Join(NormalizeTags(s), ", ")) == NormalizeTags(s)
  {
    NormalizedTagsClean(s);
    NormalizeJoined(NormalizeTags(s));
  }

  // ---- the rule document ---------------------------------------------

  /** `x || undefined` on a string field. */
  function OrUndefined(s: string): Value {
    if s == "" then Undefined else Str(s)
  }

  /** A number field, `undefined` when missing. */
  function NumOrUndefined(n: Option<int>): Value {
    if n.None? then Undefined else Num(n.value)
  }

  /** The two-key object `{ [k1]: v1, [k2]: v2 }`; an `undefined` value leaves its key out. */
  function Pair(k1: string, v1: Value, k2: string, v2: Value): Object {
    Entry(k1, v1) + Entry(k2, v2)
  }

  /** The one-key object `{ [k]: v }`, empty when `v` is `undefined`. */
  function Entry(k: string, v: Value): Object {
    if v == Undefined then map[] else map[k := v]
  }

  function Strings(ws: seq<string>): (r: seq<Value>)
    ensures |r| == |ws|
  {
    if ws == [] then [] else [Str(ws[0])] + Strings(ws[1..])
  }

  lemma {:induction false} StringsAt(ws: seq<string>)
    ensures forall i :: 0 <= i < |ws| ==> Strings(ws)[i] == Str(ws[i])
  {
    if ws != [] {
      StringsAt(ws[1..]);
    }
  }

  /** `{ from: lastGiftFrom || undefined, to: lastGiftTo || undefined }` */
  function DateRangeValue(data: FormData): Value {
    Obj(Pair("from", OrUndefined(data.lastGiftFrom), "to", OrUndefined(data.lastGiftTo)))
  }

  /** `{ min, max }` of two number fields. */
  function RangeValue(min: Option<int>, max: Option<int>): Value {
    Obj(Pair("min", NumOrUndefined(min), "max", NumOrUndefined(max)))
  }

  /** The normalised tags as a list of strings. */
  function TagsValue(tags: string): Value {
    Arr(Strings(NormalizeTags(tags)))
  }

  /** The entry the rule document holds under key `k`, `undefined` when it has none. */
  function RuleValue(data: FormData, k: string): Value {
    if k == "donorStatus" then
      (if data.donorStatus != "" then Arr([Str(data.donorStatus)]) else Undefined)
    else if k == "retentionRisk" then
      (if data.retentionRisk != "" then Arr([Str(data.retentionRisk)]) else Undefined)
    else if k == "lastGiftDateRange" then
      (if data.lastGiftFrom != "" || data.lastGiftTo != "" then DateRangeValue(data) else Undefined)
    else if k == "totalGiftAmountRange" then
      (if data.minTotalAmount.Some? || data.maxTotalAmount.Some?
       then RangeValue(data.minTotalAmount, data.maxTotalAmount) else Undefined)
    else if k == "giftCountRange" then
      (if data.minGiftCount.Some? || data.maxGiftCount.Some?
       then RangeValue(data.minGiftCount, data.maxGiftCount) else Undefined)
    else if k == "tags" then
      (if data.tags != "" then TagsValue(data.tags) else Undefined)
    else Undefined
  }

  /** The entries of the keys in `keys` that have one. */
  function Entries(data: FormData, keys: seq<string>): Object {
    map k | k in keys && RuleValue(data, k) != Undefined :: RuleValue(data, k)
  }

  /** The rule document of the form fields: every rule key that has an entry. */
  function Document(data: FormData): Object {
    Entries(data, SegmentSchema.RuleKeys)
  }

  lemma DocumentGet(data: FormData, k: string)
    ensures Get(Document(data), k) == RuleValue(data, k)
  {
  }

  /** The entry of each rule key, read off the form fields. */
  lemma RuleValues(data: FormData)
    ensures RuleValue(data, "donorStatus") == if data.donorStatus != "" then Arr([Str(data.donorStatus)]) else Undefined
    ensures RuleValue(data, "retentionRisk") == if data.retentionRisk != "" then Arr([Str(data.retentionRisk)]) else Undefined
    ensures RuleValue(data, "lastGiftDateRange") ==
      if data.lastGiftFrom != "" || data.lastGiftTo != "" then DateRangeValue(data) else Undefined
    ensures RuleValue(data, "totalGiftAmountRange") ==
      if data.minTotalAmount.Some? || data.maxTotalAmount.Some? then RangeValue(data.minTotalAmount, data.maxTotalAmount) else Undefined
    ensures RuleValue(data, "giftCountRange") ==
      if data.minGiftCount.Some? || data.maxGiftCount.Some? then RangeValue(data.minGiftCount, data.maxGiftCount) else Undefined
    ensures RuleValue(data, "tags") == if data.tags != "" then TagsValue(data.tags) else Undefined
  {
  }

  /** One step of `buildRules`: `if (add) built[k] = v` adds the entry of `k`. */
  method AddEntry(built: Object, ghost data: FormData, ghost keys: seq<string>, k: string, add: bool, v: Value)
    returns (r: Object)
    requires built == Entries(data, keys)
    requires RuleValue(data, k) == if add then v else Undefined
    requires add ==> v != Undefined
    ensures r == Entries(data, keys + [k])
  {
    r := built;
    if add {
      r := r[k := v];
    }
  }

  /**
   * `buildRules(data)`: the keys are added one by one, in the order of the
   * source, and an empty document is returned as `undefined`.
   */
  method BuildRules(data: FormData) returns (rules: Option<Object>)
    ensures rules.None? <==> |Document(data)| == 0
    ensures rules.Some? ==> rules.value == Document(data)
  {
    var built: Object := map[];
    ghost var keys: seq<string> := [];
    assert built == Entries(data, keys);
    RuleValues(data);
    built := AddEntry(built, data, keys, "donorStatus", data.donorStatus != "", Arr([Str(data.donorStatus)]));
    keys := keys + ["donorStatus"];
    built := AddEntry(built, data, keys, "retentionRisk", data.retentionRisk != "", Arr([Str(data.retentionRisk)]));
    keys := keys + ["retentionRisk"];
    built := AddEntry(built, data, keys, "lastGiftDateRange", data.lastGiftFrom != "" || data.lastGiftTo != "",
      DateRangeValue(data));
    keys := keys + ["lastGiftDateRange"];
    built := AddEntry(built, data, keys, "totalGiftAmountRange", data.minTotalAmount.Some? || data.maxTotalAmount.Some?,
      RangeValue(data.minTotalAmount, data.maxTotalAmount));
    keys := keys + ["totalGiftAmountRange"];
    built := AddEntry(built, data, keys, "giftCountRange", data.minGiftCount.Some? || data.maxGiftCount.Some?,
      RangeValue(data.minGiftCount, data.maxGiftCount));
    keys := keys + ["giftCountRange"];
    built := AddEntry(built, data, keys, "tags", data.tags != "", TagsValue(data.tags));
    keys := keys + ["tags"];
    assert keys == SegmentSchema.RuleKeys;
    if |built| > 0 {
      rules := Some(built);
    } else {
      rules := None;
    }
  }

  /** A status or a risk is stored exactly when given, as a one-element list. */
  lemma DocumentLists(data: FormData)
    ensures var doc := Document(data);
      && (Get(doc, "donorStatus") != Undefined <==> data.donorStatus != "")
      && (data.donorStatus != "" ==> Get(doc, "donorStatus") == Arr([Str(data.donorStatus)]))
      && (Get(doc, "retentionRisk") != Undefined <==> data.retentionRisk != "")
      && (data.retentionRisk != "" ==> Get(doc, "retentionRisk") == Arr([Str(data.retentionRisk)]))
  {
    DocumentGet(data, "donorStatus");
    DocumentGet(data, "retentionRisk");
  }

  /**
   * A date range is stored exactly when an end is given, a number range
   * exactly when a bound is given, and tags exactly when the field is not
   * blank.
   */
  lemma DocumentRanges(data: FormData)
    ensures var doc := Document(data);
      && (Get(doc, "lastGiftDateRange") != Undefined <==> data.lastGiftFrom != "" || data.lastGiftTo != "")
      && (Get(doc, "totalGiftAmountRange") != Undefined <==> data.minTotalAmount.Some? || data.maxTotalAmount.Some?)
      && (Get(doc, "giftCountRange") != Undefined <==> data.minGiftCount.Some? || data.maxGiftCount.Some?)
      && (Get(doc, "tags") != Undefined <==> data.tags != "")
  {
    DocumentGet(data, "lastGiftDateRange");
    DocumentGet(data, "totalGiftAmountRange");
    DocumentGet(data, "giftCountRange");
    DocumentGet(data, "tags");
  }

  /** The document holds rule keys only. */
  lemma DocumentKeys(data: FormData)
    ensures forall k :: k in Document(data) ==> k in SegmentSchema.RuleKeys
  {
  }

  /** Each end of a stored date range is the given text, or absent when that end was blank. */
  lemma DateRangeEnds(data: FormData)
    requires data.lastGiftFrom != "" || data.lastGiftTo != ""
    ensures var r := Get(Document(data), "lastGiftDateRange");
      && r.Obj?
      && (Get(r.fields, "from") == Undefined <==> data.lastGiftFrom == "")
      && (data.lastGiftFrom != "" ==> Get(r.fields, "from") == Str(data.lastGiftFrom))
      && (Get(r.fields, "to") == Undefined <==> data.lastGiftTo == "")
      && (data.lastGiftTo != "" ==> Get(r.fields, "to") == Str(data.lastGiftTo))
  {
    DocumentGet(data, "lastGiftDateRange");
  }

  /** Every stored tag is clean, and the tags are those of the field in order. */
  lemma StoredTags(data: FormData)
    requires data.tags != ""
    ensures var t := Get(Document(data), "tags");
      && t.Arr? && |t.items| == |NormalizeTags(data.tags)|
      && forall i :: 0 <= i < |t.items| ==> t.items[i] == Str(NormalizeTags(data.tags)[i]) && CleanTag(NormalizeTags(data.tags)[i])
  {
    DocumentGet(data, "tags");
    NormalizedTagsClean(data.tags);
    StringsAt(NormalizeTags(data.tags));
  }

  /** A date range is ordered when both ends are given: both are valid dates and `from` is not after `to`. */
  predicate DatesOrdered(env: Env, from: string, to: string) {
    from != "" && to != "" ==>
      env.dateOf(from).Some? && env.dateOf(to).Some? && env.dateOf(from).value <= env.dateOf(to).value
  }

  /** A number range is ordered when both bounds are given and min is at most max. */
  predicate BoundsOrdered(min: Option<int>, max: Option<int>) {
    min.Some? && max.Some? ==> min.value <= max.value
  }

  /** The list of one enum value, or the absent entry, is accepted exactly for a value of the enum. */
  lemma ListAccepted(env: Env, options: seq<string>, s: string)
    ensures var v := if s != "" then Arr([Str(s)]) else Undefined;
      Apply(env, Optional(ArrayOf(Choice(options))), v).Some? <==> s == "" || s in options
  {
    if s != "" {
      ApplyAllSpec(env, Choice(options), [Str(s)], 0);
    }
  }

  lemma DateRangeAccepted(env: Env, data: FormData)
    ensures Apply(env, Optional(SegmentSchema.DateRange), RuleValue(data, "lastGiftDateRange")).Some?
      <==> DatesOrdered(env, data.lastGiftFrom, data.lastGiftTo)
  {
    if data.lastGiftFrom != "" || data.lastGiftTo != "" {
      var o := Pair("from", OrUndefined(data.lastGiftFrom), "to", OrUndefined(data.lastGiftTo));
      assert Get(o, "from") == OrUndefined(data.lastGiftFrom);
      assert Get(o, "to") == OrUndefined(data.lastGiftTo);
      SegmentSchema.DateRangeAccepts(env, o);
    }
  }

  lemma RangeAccepted(env: Env, min: Option<int>, max: Option<int>)
    ensures var v := if min.Some? || max.Some? then RangeValue(min, max) else Undefined;
      Apply(env, Optional(SegmentSchema.NumberRange), v).Some? <==>
        (min.Some? ==> min.value >= 0) && (max.Some? ==> max.value >= 0) && BoundsOrdered(min, max)
  {
    if min.Some? || max.Some? {
      var o := Pair("min", NumOrUndefined(min), "max", NumOrUndefined(max));
      assert Get(o, "min") == NumOrUndefined(min);
      assert Get(o, "max") == NumOrUndefined(max);
      SegmentSchema.NumberRangeAccepts(env, o);
    }
  }

  /** Clean tags pass the element check of the tag list, each one kept as it is. */
  lemma CleanTagsAccepted(env: Env, ws: seq<string>)
    requires forall i :: 0 <= i < |ws| ==> CleanTag(ws[i])
    ensures Apply(env, ArrayOf(Text(true, 1, None)), Arr(Strings(ws))).Some?
  {
    var items := Strings(ws);
    StringsAt(ws);
    forall j | 0 <= j < |items|
      ensures Apply(env, Text(true, 1, None), items[j]).Some?
    {
      TrimOfTrimmed(ws[j]);
      assert Apply(env, Text(true, 1, None), items[j]) == TextRule(true, 1, None, items[j]);
    }
    ApplyAllSpec(env, Text(true, 1, None), items, 0);
  }

  /** Normalised tags always pass the rule document's tag check. */
  lemma TagsAccepted(env: Env, data: FormData)
    ensures Apply(env, Optional(ArrayOf(Text(true, 1, None))), RuleValue(data, "tags")).Some?
  {
    if data.tags != "" {
      NormalizedTagsClean(data.tags);
      CleanTagsAccepted(env, NormalizeTags(data.tags));
    }
  }

  /** The checks of `BuiltDocumentAccepted`, on the form fields. */
  predicate DocumentValid(env: Env, data: FormData) {
    && ValidForm(data)
    && DatesOrdered(env, data.lastGiftFrom, data.lastGiftTo)
    && BoundsOrdered(data.minTotalAmount, data.maxTotalAmount)
    && BoundsOrdered(data.minGiftCount, data.maxGiftCount)
  }

  lemma AcceptedDocumentValid(env: Env, data: FormData)
    requires Apply(env, SegmentSchema.Rules, Obj(Document(data))).Some?
    ensures DocumentValid(env, data)
  {
    var doc := Document(data);
    var keys := SegmentSchema.RuleKeys;
    var rules := SegmentSchema.RuleRules;
    SegmentSchema.RuleKeysDistinct();
    FieldOf(env, keys, rules, doc, 0);
    DocumentGet(data, "donorStatus");
    ListAccepted(env, DonorSchema.DonorStatuses, data.donorStatus);
    FieldOf(env, keys, rules, doc, 1);
    DocumentGet(data, "retentionRisk");
    ListAccepted(env, DonorSchema.RetentionRisks, data.retentionRisk);
    FieldOf(env, keys, rules, doc, 2);
    DocumentGet(data, "lastGiftDateRange");
    DateRangeAccepted(env, data);
    FieldOf(env, keys, rules, doc, 3);
    DocumentGet(data, "totalGiftAmountRange");
    RangeAccepted(env, data.minTotalAmount, data.maxTotalAmount);
    FieldOf(env, keys, rules, doc, 4);
    DocumentGet(data, "giftCountRange");
    RangeAccepted(env, data.minGiftCount, data.maxGiftCount);
  }

  lemma ValidDocumentAccepted(env: Env, data: FormData)
    requires DocumentValid(env, data)
    ensures Apply(env, SegmentSchema.Rules, Obj(Document(data))).Some?
  {
    var doc := Document(data);
    var keys := SegmentSchema.RuleKeys;
    var rules := SegmentSchema.RuleRules;
    SegmentSchema.RuleKeysDistinct();
    forall j | 0 <= j < |keys|
      ensures Apply(env, rules[j], Get(doc, keys[j])).Some?
    {
      DocumentGet(data, keys[j]);
      if j == 0 {
        ListAccepted(env, DonorSchema.DonorStatuses, data.donorStatus);
      } else if j == 1 {
        ListAccepted(env, DonorSchema.RetentionRisks, data.retentionRisk);
      } else if j == 2 {
        DateRangeAccepted(env, data);
      } else if j == 3 {
        RangeAccepted(env, data.minTotalAmount, data.maxTotalAmount);
      } else if j == 4 {
        RangeAccepted(env, data.minGiftCount, data.maxGiftCount);
      } else {
        TagsAccepted(env, data);
      }
    }
    ShapeAccepts(env, keys, rules, doc);
  }

  /**
   * The document `buildRules` produces passes the rule-document schema
   * exactly when the form's own field checks hold, a date range with both
   * ends is ordered and each number range with both bounds is ordered.
   */
  lemma BuiltDocumentAccepted(env: Env, data: FormData)
    ensures Apply(env, SegmentSchema.Rules, Obj(Document(data))).Some? <==> DocumentValid(env, data)
  {
    if Apply(env, SegmentSchema.Rules, Obj(Document(data))).Some? {
      AcceptedDocumentValid(env, data);
    }
    if DocumentValid(env, data) {
      ValidDocumentAccepted(env, data);
    }
  }

  // ---- the submitted payload and the starting values -----------------

  /**
   * `handleSubmit(data)` up to the `onSubmit` call: the payload holds the
   * name, a blank description as `null`, and the rule document, left out
   * when `buildRules` returns `undefined`.
   */
  method HandleSubmit(name: string, description: string, data: FormData) returns (payload: Object)
    ensures payload == SubmitPayload(name, description, data)
    ensures Get(payload, "name") == Str(name)
    ensures Get(payload, "description") == if description == "" then Null else Str(description)
    ensures Get(payload, "rules") == if |Document(data)| == 0 then Undefined else Obj(Document(data))
    ensures forall k :: k in payload ==> k in SegmentSchema.CreateSegmentKeys
  {
    var rules := BuildRules(data);
    payload := map["name" := Str(name), "description" := if description != "" then Str(description) else Null];
    if rules.Some? {
      payload := payload["rules" := Obj(rules.value)];
    }
  }

  /** The object `handleSubmit` passes to `onSubmit`. */
  function SubmitPayload(name: string, description: string, data: FormData): Object {
    var fields := map["name" := Str(name), "description" := if description != "" then Str(description) else Null];
    if |Document(data)| == 0 then fields else fields["rules" := Obj(Document(data))]
  }

  /**
   * The payload with `description: data.description || undefined`: a
   * blank description is left out rather than sent as `null`.
   */
  function CorrectedPayload(name: string, description: string, data: FormData): Object {
    var named := map["name" := Str(name)];
    var fields := if description != "" then named["description" := Str(description)] else named;
    if |Document(data)| == 0 then fields else fields["rules" := Obj(Document(data))]
  }

  /** The payload of a form with a description is the corrected payload. */
  lemma PayloadsAgree(name: string, description: string, data: FormData)
    requires description != ""
    ensures SubmitPayload(name, description, data) == CorrectedPayload(name, description, data)
  {
  }

  lemma CorrectedPayloadGet(name: string, description: string, data: FormData)
    ensures var p := CorrectedPayload(name, description, data);
      && Get(p, "name") == Str(name)
      && Get(p, "description") == (if description != "" then Str(description) else Undefined)
      && Get(p, "rules") == (if |Document(data)| == 0 then Undefined else Obj(Document(data)))
  {
  }

  /** The name of the corrected payload against its rule in `createSegmentSchema`. */
  lemma CorrectedName(env: Env, name: string, description: string, data: FormData)
    ensures Apply(env, SegmentSchema.CreateSegmentRules[0], Get(CorrectedPayload(name, description, data), "name")).Some?
        <==> 1 <= Utf16Length(name) <= 120
  {
    CorrectedPayloadGet(name, description, data);
    assert Apply(env, SegmentSchema.CreateSegmentRules[0], Str(name)) == TextRule(false, 1, Some(120), Str(name));
  }

  /** The description of the corrected payload against its rule in `createSegmentSchema`. */
  lemma CorrectedDescription(env: Env, name: string, description: string, data: FormData)
    ensures Apply(env, SegmentSchema.CreateSegmentRules[1], Get(CorrectedPayload(name, description, data), "description")).Some?
        <==> Utf16Length(description) <= 500
  {
    CorrectedPayloadGet(name, description, data);
    OptionalOrEmpty(env, 0, 500, Get(CorrectedPayload(name, description, data), "description"));
  }

  /** The rule document of the corrected payload against its rule in `createSegmentSchema`. */
  lemma CorrectedRules(env: Env, name: string, description: string, data: FormData)
    ensures Apply(env, SegmentSchema.CreateSegmentRules[2], Get(CorrectedPayload(name, description, data), "rules")).Some?
        <==> (|Document(data)| > 0 ==> DocumentValid(env, data))
  {
    CorrectedPayloadGet(name, description, data);
    if |Document(data)| > 0 {
      BuiltDocumentAccepted(env, data);
      assert Apply(env, SegmentSchema.CreateSegmentRules[2], Obj(Document(data)))
          == Apply(env, SegmentSchema.Rules, Obj(Document(data)));
    }
  }

  /**
   * `createSegmentSchema` accepts the corrected payload exactly when the
   * name has 1 to 120 code units, the description at most 500, and the
   * rule document, when there is one, passes the rule-document schema.
   */
  lemma CorrectedPayloadAccepted(env: Env, name: string, description: string, data: FormData)
    ensures Apply(env, SegmentSchema.CreateSegment, Obj(CorrectedPayload(name, description, data))).Some? <==>
      && 1 <= Utf16Length(name) <= 120 && Utf16Length(description) <= 500
      && (|Document(data)| > 0 ==> DocumentValid(env, data))
  {
    var p := CorrectedPayload(name, description, data);
    var keys := SegmentSchema.CreateSegmentKeys;
    var rules := SegmentSchema.CreateSegmentRules;
    SegmentSchema.CreateSegmentKeysDistinct();
    CorrectedName(env, name, description, data);
    CorrectedDescription(env, name, description, data);
    CorrectedRules(env, name, description, data);
    if Apply(env, SegmentSchema.CreateSegment, Obj(p)).Some? {
      FieldOf(env, keys, rules, p, 0);
      FieldOf(env, keys, rules, p, 1);
      FieldOf(env, keys, rules, p, 2);
    } else if 1 <= Utf16Length(name) <= 120 && Utf16Length(description) <= 500
              && (|Document(data)| > 0 ==> DocumentValid(env, data)) {
      ShapeAccepts(env, keys, rules, p);
    }
  }

  /**
   * As written, `createSegmentSchema` rejects every payload with a blank
   * description, because `null` is neither absent, a string nor `''`; with
   * a description, the payload is accepted exactly as the corrected one is.
   */
  lemma SubmitPayloadAccepted(env: Env, name: string, description: string, data: FormData)
    ensures Apply(env, SegmentSchema.CreateSegment, Obj(SubmitPayload(name, description, data))).Some? <==>
      && description != ""
      && 1 <= Utf16Length(name) <= 120 && Utf16Length(description) <= 500
      && (|Document(data)| > 0 ==> DocumentValid(env, data))
  {
    var p := SubmitPayload(name, description, data);
    if description == "" {
      if Apply(env, SegmentSchema.CreateSegment, Obj(p)).Some? {
        SegmentSchema.CreateSegmentKeysDistinct();
        FieldOf(env, SegmentSchema.CreateSegmentKeys, SegmentSchema.CreateSegmentRules, p, 1);
        OptionalOrEmpty(env, 0, 500, Null);
        assert false;
      }
    } else {
      PayloadsAgree(name, description, data);
      CorrectedPayloadAccepted(env, name, description, data);
    }
  }

  /** `v?.[k]` for a named key: only an object has one. */
  function Prop(v: Value, k: string): Value {
    if v.Obj? then Get(v.fields, k) else Undefined
  }

  /** `v?.[0]`: the first element of an array, the first character of a string. */
  function First(v: Value): Value {
    match v
    case Arr(items) => if |items| > 0 then items[0] else Undefined
    case Str(s) => if |s| > 0 then Str([s[0]]) else Undefined
    case Obj(fields) => Get(fields, "0")
    case _ => Undefined
  }

  /** `v ?? ''` */
  function OrBlank(v: Value): (r: Value)
    ensures r != Undefined && r != Null
    ensures v != Undefined && v != Null ==> r == v
  {
    if v == Undefined || v == Null then Str("") else v
  }

  /**
   * How `join` writes one element: `null` and `undefined` as `''`, a
   * string as itself, anything else by `show` (JavaScript's `String`).
   */
  function ItemText(v: Value, show: Value -> string): string {
    if v == Undefined || v == Null then "" else if v.Str? then v.s else show(v)
  }

  function ItemTexts(items: seq<Value>, show: Value -> string): (r: seq<string>)
    ensures |r| == |items|
  {
    if items == [] then [] else [ItemText(items[0], show)] + ItemTexts(items[1..], show)
  }

  /** A list of strings is written out as those strings. */
  lemma {:induction false} ItemTextsOfStrings(ws: seq<string>, show: Value -> string)
    ensures ItemTexts(Strings(ws), show) == ws
  {
    if ws != [] {
      ItemTextsOfStrings(ws[1..], show);
      assert Strings(ws)[1..] == Strings(ws[1..]);
      assert [ws[0]] + ws[1..] == ws;
    }
  }

  /**
   * `tags?.join(', ') ?? ''`; `None` is the `TypeError` thrown when `join`
   * is called on a value that is not an array.
   */
  function TagsText(tags: Value, show: Value -> string): Option<string> {
    if tags == Undefined || tags == Null then Some("")
    else if tags.Arr? then Some(Join(ItemTexts(tags.items, show), ", "))
    else None
  }

  /** The starting values of the form. */
  datatype Defaults = Defaults(
    name: Value, description: Value,
    donorStatus: Value, retentionRisk: Value,
    lastGiftFrom: Value, lastGiftTo: Value,
    minTotalAmount: Value, maxTotalAmount: Value,
    minGiftCount: Value, maxGiftCount: Value,
    tags: string)

  /** The starting values other than the tag text. */
  function Values(d: Defaults): seq<Value> {
    [d.name, d.description, d.donorStatus, d.retentionRisk, d.lastGiftFrom, d.lastGiftTo,
     d.minTotalAmount, d.maxTotalAmount, d.minGiftCount, d.maxGiftCount]
  }

  /** `segment?.[k]` */
  function SegmentField(segment: Option<Object>, k: string): Value {
    if segment.Some? then Get(segment.value, k) else Undefined
  }

  /** `segment?.rules || {}` */
  function StoredRules(segment: Option<Object>): Value {
    if segment.Some? && Truthy(Get(segment.value, "rules")) then Get(segment.value, "rules") else Obj(map[])
  }

  /**
   * The `defaultValues` of the form for `segment` (`None` for a new
   * segment).  Every value is defined and not `null`; the read-back fails
   * only when a stored `tags` entry is neither nullish nor an array.
   */
  function ReadBack(segment: Option<Object>, show: Value -> string): (r: Option<Defaults>)
    ensures r.None? <==> var t := Prop(StoredRules(segment), "tags"); t != Undefined && t != Null && !t.Arr?
  {
    var rules := StoredRules(segment);
    var tags := TagsText(Prop(rules, "tags"), show);
    if tags.None? then None
    else
      Some(Defaults(
        OrBlank(SegmentField(segment, "name")), OrBlank(SegmentField(segment, "description")),
        OrBlank(First(Prop(rules, "donorStatus"))), OrBlank(First(Prop(rules, "retentionRisk"))),
        OrBlank(Prop(Prop(rules, "lastGiftDateRange"), "from")), OrBlank(Prop(Prop(rules, "lastGiftDateRange"), "to")),
        OrBlank(Prop(Prop(rules, "totalGiftAmountRange"), "min")), OrBlank(Prop(Prop(rules, "totalGiftAmountRange"), "max")),
        OrBlank(Prop(Prop(rules, "giftCountRange"), "min")), OrBlank(Prop(Prop(rules, "giftCountRange"), "max")),
        tags.value))
  }

  /** Each bound of a stored number range reads back to what `numberField` turns into the same bound. */
  lemma BoundsReadBack(env: Env, min: Option<int>, max: Option<int>)
    requires min.Some? ==> min.value >= 0
    requires max.Some? ==> max.value >= 0
    ensures var r := if min.Some? || max.Some? then RangeValue(min, max) else Undefined;
      && Apply(env, NumberField, OrBlank(Prop(r, "min"))) == Some(NumOrUndefined(min))
      && Apply(env, NumberField, OrBlank(Prop(r, "max"))) == Some(NumOrUndefined(max))
  {
    var r := if min.Some? || max.Some? then RangeValue(min, max) else Undefined;
    if min.Some? || max.Some? {
      assert Prop(r, "min") == NumOrUndefined(min);
      assert Prop(r, "max") == NumOrUndefined(max);
    }
    NumberFieldAccepts(env, OrBlank(Prop(r, "min")));
    NumberFieldAccepts(env, OrBlank(Prop(r, "max")));
  }

  /** `?? ''` leaves no starting value undefined or `null`. */
  lemma DefaultsDefined(segment: Option<Object>, show: Value -> string)
    requires ReadBack(segment, show).Some?
    ensures forall v :: v in Values(ReadBack(segment, show).value) ==> v != Undefined && v != Null
  {
  }

  /** Joining a non-empty list whose first word is not empty gives a non-empty string. */
  lemma JoinNotEmpty(ws: seq<string>, sep: string)
    requires |ws| >= 1 && ws[0] != ""
    ensures Join(ws, sep) != ""
  {
  }

  /** The tag text read back from the stored tags normalises to the same tags, and is blank exactly when there are none. */
  lemma TagsRoundTrip(show: Value -> string, tags: string)
    ensures var t := TagsText(if tags != "" then TagsValue(tags) else Undefined, show);
      && t.Some?
      && NormalizeTags(t.value) == NormalizeTags(tags)
      && (t.value == "" <==> tags == "" || NormalizeTags(tags) == [])
  {
    if tags != "" {
      var ws := NormalizeTags(tags);
      NormalizedTagsClean(tags);
      ItemTextsOfStrings(ws, show);
      NormalizeJoined(ws);
      if ws != [] {
        JoinNotEmpty(ws, ", ");
      }
    }
  }

  /** A segment saved from the form: its name, its description with blank as `null`, and its rule document. */
  predicate SavedFrom(segment: Object, name: string, description: string, data: FormData) {
    && Get(segment, "name") == Str(name)
    && Get(segment, "description") == (if description == "" then Null else Str(description))
    && (Get(segment, "rules") == Obj(Document(data)) || (|Document(data)| == 0 && !Truthy(Get(segment, "rules"))))
  }

  /** The read-back of a saved segment, field by field. */
  lemma ReadBackSaved(segment: Object, show: Value -> string, name: string, description: string, data: FormData)
    requires SavedFrom(segment, name, description, data)
    ensures ReadBack(Some(segment), show).Some?
    ensures var d := ReadBack(Some(segment), show).value;
      && d.name == Str(name)
      && d.description == OrBlank(Get(segment, "description"))
      && d.donorStatus == OrBlank(First(RuleValue(data, "donorStatus")))
      && d.retentionRisk == OrBlank(First(RuleValue(data, "retentionRisk")))
      && d.lastGiftFrom == OrBlank(Prop(RuleValue(data, "lastGiftDateRange"), "from"))
      && d.lastGiftTo == OrBlank(Prop(RuleValue(data, "lastGiftDateRange"), "to"))
      && d.minTotalAmount == OrBlank(Prop(RuleValue(data, "totalGiftAmountRange"), "min"))
      && d.maxTotalAmount == OrBlank(Prop(RuleValue(data, "totalGiftAmountRange"), "max"))
      && d.minGiftCount == OrBlank(Prop(RuleValue(data, "giftCountRange"), "min"))
      && d.maxGiftCount == OrBlank(Prop(RuleValue(data, "giftCountRange"), "max"))
  {
    ReadBackSavedTags(segment, show, name, description, data);
    SavedRuleValue(segment, name, description, data, "donorStatus");
    SavedRuleValue(segment, name, description, data, "retentionRisk");
    SavedRuleValue(segment, name, description, data, "lastGiftDateRange");
    SavedRuleValue(segment, name, description, data, "totalGiftAmountRange");
    SavedRuleValue(segment, name, description, data, "giftCountRange");
  }

  /** Each rule entry of a saved segment is the entry the form built. */
  lemma SavedRuleValue(segment: Object, name: string, description: string, data: FormData, k: string)
    requires SavedFrom(segment, name, description, data)
    ensures Prop(StoredRules(Some(segment)), k) == RuleValue(data, k)
  {
    assert StoredRules(Some(segment)) == Obj(Document(data));
    DocumentGet(data, k);
  }

  /** A status or risk chosen in the form reads back as itself, none as `''`. */
  lemma ListsReadBack(data: FormData)
    ensures OrBlank(First(RuleValue(data, "donorStatus"))) == Str(data.donorStatus)
    ensures OrBlank(First(RuleValue(data, "retentionRisk"))) == Str(data.retentionRisk)
  {
  }

  /** Both ends of a stored date range read back to the form's text, a missing end as `''`. */
  lemma DateEndsReadBack(data: FormData)
    ensures OrBlank(Prop(RuleValue(data, "lastGiftDateRange"), "from")) == Str(data.lastGiftFrom)
    ensures OrBlank(Prop(RuleValue(data, "lastGiftDateRange"), "to")) == Str(data.lastGiftTo)
  {
    var dates := RuleValue(data, "lastGiftDateRange");
    if data.lastGiftFrom != "" || data.lastGiftTo != "" {
      assert Prop(dates, "from") == OrUndefined(data.lastGiftFrom);
      assert Prop(dates, "to") == OrUndefined(data.lastGiftTo);
    }
  }

  /** The tag text of a saved segment is read back from its stored tags. */
  lemma ReadBackSavedTags(segment: Object, show: Value -> string, name: string, description: string, data: FormData)
    requires SavedFrom(segment, name, description, data)
    ensures ReadBack(Some(segment), show).Some?
    ensures TagsText(RuleValue(data, "tags"), show).Some?
    ensures ReadBack(Some(segment), show).value.tags == TagsText(RuleValue(data, "tags"), show).value
  {
    var rules := StoredRules(Some(segment));
    assert rules == Obj(Document(data));
    DocumentGet(data, "tags");
    TagsRoundTrip(show, data.tags);
  }

  /** The bounds read back from a saved segment turn into the same bounds through `numberField`. */
  lemma BoundsRoundTrip(env: Env, show: Value -> string, segment: Object, name: string, description: string, data: FormData)
    requires ValidForm(data)
    requires SavedFrom(segment, name, description, data)
    ensures ReadBack(Some(segment), show).Some?
    ensures var d := ReadBack(Some(segment), show).value;
      && Apply(env, NumberField, d.minTotalAmount) == Some(NumOrUndefined(data.minTotalAmount))
      && Apply(env, NumberField, d.maxTotalAmount) == Some(NumOrUndefined(data.maxTotalAmount))
      && Apply(env, NumberField, d.minGiftCount) == Some(NumOrUndefined(data.minGiftCount))
      && Apply(env, NumberField, d.maxGiftCount) == Some(NumOrUndefined(data.maxGiftCount))
  {
    ReadBackSaved(segment, show, name, description, data);
    BoundsReadBack(env, data.minTotalAmount, data.maxTotalAmount);
    BoundsReadBack(env, data.minGiftCount, data.maxGiftCount);
  }

  /** The tag text read back from a saved segment normalises to the saved tags. */
  lemma SavedTagsRoundTrip(show: Value -> string, segment: Object, name: string, description: string, data: FormData)
    requires SavedFrom(segment, name, description, data)
    ensures ReadBack(Some(segment), show).Some?
    ensures var d := ReadBack(Some(segment), show).value;
      && NormalizeTags(d.tags) == NormalizeTags(data.tags)
      && (d.tags == "" <==> data.tags == "" || NormalizeTags(data.tags) == [])
  {
    ReadBackSavedTags(segment, show, name, description, data);
    TagsRoundTrip(show, data.tags);
  }

  /**
   * Reading back a segment saved from the form reproduces its name and
   * description, its status and risk and both date ends, a blank or missing
   * value as `''`.
   */
  lemma RoundTrip(show: Value -> string, segment: Object, name: string, description: string, data: FormData)
    requires SavedFrom(segment, name, description, data)
    ensures ReadBack(Some(segment), show).Some?
    ensures var d := ReadBack(Some(segment), show).value;
      && d.name == Str(name) && d.description == Str(description)
      && d.donorStatus == Str(data.donorStatus) && d.retentionRisk == Str(data.retentionRisk)
      && d.lastGiftFrom == Str(data.lastGiftFrom) && d.lastGiftTo == Str(data.lastGiftTo)
  {
    ReadBackSaved(segment, show, name, description, data);
    DateEndsReadBack(data);
    ListsReadBack(data);
    var d := ReadBack(Some(segment), show).value;
    assert d.description == Str(description);
  }

  /**
   * A tags field of commas and blanks is not blank, so the document holds
   * an empty tag list, whose read-back is `''`: saving the form again
   * drops the `tags` key.
   */
  lemma CommasOnlyTags(show: Value -> string)
    ensures var data := FormData("", "", "", "", None, None, None, None, " , ");
      && Get(Document(data), "tags") == Arr([])
      && TagsText(RuleValue(data, "tags"), show) == Some("")
  {
    var data := FormData("", "", "", "", None, None, None, None, " , ");
    assert " "[1..] == "";
    assert Split("", ',') == [""];
    assert [' '] + "" == " ";
    assert Split(" ", ',') == [" "];
    assert ", "[1..] == " ";
    assert Split(", ", ',') == ["", " "];
    assert " , "[1..] == ", ";
    assert Split(" , ", ',') == [" ", " "];
    assert TrimStart(" ") == "";
    assert TrimAll([" ", " "]) == ["", ""];
    DocumentGet(data, "tags");
  }
}
