/**
 * The part of the zod validation library (version 4) the schemas use, as a small
 * language of rules and one interpreter, `Apply`.  A rule either rejects a
 * value (`None`) or accepts it and yields the parsed value, with defaults
 * filled in and transforms applied.  Error messages and the error
 * structure are not modelled.
 *
 * Three checks depend on code outside the schemas and are parameters
 * (`Env`): the e-mail pattern of `.email()`, the ISO format of
 * `.datetime()`, and `new Date(text)`.
 */
module Zod {
  import opened Js
  import opened Text

  datatype Env = Env(isEmail: string -> bool, isDateTime: string -> bool, dateOf: string -> Option<int>)

  /** The checks of the `.refine(...)` calls. */
  datatype Check =
    | MinAtMostMax      // `val.min !== undefined && val.max !== undefined ? val.min <= val.max : true`
    | FromNotAfterTo    // `!val.from || !val.to || new Date(val.from) <= new Date(val.to)`
    | PasswordsMatch    // `data.password || data.confirmPassword ? data.password === data.confirmPassword : true`

  datatype Rule =
    | Text(trim: bool, min: nat, max: Option<nat>)          // z.string()[.trim()].min(min)[.max(max)]
    | Email                                                // z.string().email()
    | DateTimeText                                         // z.string().datetime()
    | Literal(text: string)                                // z.literal(text)
    | Choice(options: seq<string>)                         // z.enum(options)
    | Number(coerce: bool, low: Option<int>, high: Option<int>)  // [z.coerce].number() with bounds
    | Boolean                                              // z.boolean()
    | CoerceDate                                           // z.coerce.date()
    | Optional(inner: Rule)                                // inner.optional()
    | Nullable(inner: Rule)                                // inner.nullable()
    | Or(left: Rule, right: Rule)                          // left.or(right)
    | Default(inner: Rule, value: Value)                   // inner.default(value)
    | EmptyToUndefinedThen(inner: Rule)                    // z.preprocess(emptyToUndefined, inner)
    | EmptyToNull(inner: Rule)                             // inner.transform(val => val === '' ? null : val)
    | ArrayOf(element: Rule)                               // z.array(element)
    | Shape(keys: seq<string>, rules: seq<Rule>)           // z.object({ keys[i]: rules[i] })
    | Refine(inner: Rule, check: Check)                    // inner.refine(check)

  /** `t` without a leading sign. */
  function Unsigned(t: string): string {
    if |t| > 0 && (t[0] == '-' || t[0] == '+') then t[1..] else t
  }

  predicate AllDigits(d: string) {
    forall i :: 0 <= i < |d| ==> '0' <= d[i] <= '9'
  }

  /** An optional sign followed by decimal digits. */
  predicate IsIntegerText(t: string) {
    |Unsigned(t)| > 0 && AllDigits(Unsigned(t))
  }

  function DigitsValue(d: string): nat
    requires AllDigits(d)
  {
    if d == [] then 0 else DigitsValue(d[..|d| - 1]) * 10 + (d[|d| - 1] as int - '0' as int)
  }

  function IntegerTextValue(t: string): int
    requires IsIntegerText(t)
  {
    var n: int := DigitsValue(Unsigned(t));
    if t[0] == '-' then -n else n
  }

  /** `Number(v)` for the values whose number is an integer; `None` stands for NaN. */
  function NumberOf(v: Value): (n: Option<int>)
    ensures v.Num? ==> n == Some(v.n)
    ensures v == Undefined ==> n.None?
    ensures v == Null || v == Str("") ==> n == Some(0)
  {
    match v
    case Num(x) => Some(x)
    case Null => Some(0)
    case Bool(b) => Some(if b then 1 else 0)
    case Date(t) => Some(t)
    case Str(s) =>
      var t := Trim(s);
      if t == "" then Some(0)
      else if IsIntegerText(t) then Some(IntegerTextValue(t))
      else None
    case _ => None
  }

  /** `new Date(v)` for the values a date is coerced from; `None` is an Invalid Date. */
  function DateOf(env: Env, v: Value): Option<int> {
    match v
    case Str(s) => env.dateOf(s)
    case Num(x) => Some(x)
    case Null => Some(0)
    case Bool(b) => Some(if b then 1 else 0)
    case Date(t) => Some(t)
    case _ => None
  }

  predicate Within(n: int, low: Option<int>, high: Option<int>) {
    (low.None? || low.value <= n) && (high.None? || n <= high.value)
  }

  predicate NumAtMost(a: Value, b: Value) {
    a.Num? && b.Num? && a.n <= b.n
  }

  predicate Holds(env: Env, check: Check, o: Object) {
    match check
    case MinAtMostMax =>
      Get(o, "min") != Undefined && Get(o, "max") != Undefined ==> NumAtMost(Get(o, "min"), Get(o, "max"))
    case FromNotAfterTo =>
      var from := Get(o, "from");
      var to := Get(o, "to");
      Truthy(from) && Truthy(to) ==>
        from.Str? && to.Str? && env.dateOf(from.s).Some? && env.dateOf(to.s).Some?
        && env.dateOf(from.s).value <= env.dateOf(to.s).value
    case PasswordsMatch =>
      Truthy(Get(o, "password")) || Truthy(Get(o, "confirmPassword")) ==>
        Get(o, "password") == Get(o, "confirmPassword")
  }

  /**
   * `z.string()[.trim()].min(min)[.max(max)]`: the length, in UTF-16 code
   * units, is checked after trimming.
   */
  function TextRule(trim: bool, min: nat, max: Option<nat>, v: Value): (r: Option<Value>)
    ensures r.Some? <==> v.Str? && min <= Utf16Length(if trim then Trim(v.s) else v.s)
                         && (max.None? || Utf16Length(if trim then Trim(v.s) else v.s) <= max.value)
    ensures r.Some? ==> r.value == Str(if trim then Trim(v.s) else v.s)
  {
    if !v.Str? then None
    else
      var t := if trim then Trim(v.s) else v.s;
      if min <= Utf16Length(t) && (max.None? || Utf16Length(t) <= max.value) then Some(Str(t)) else None
  }

  /** `[z.coerce].number()` with its `.int()`, `.min`, `.max`, `.positive()` or `.nonnegative()` checks. */
  function NumberRule(coerce: bool, low: Option<int>, high: Option<int>, v: Value): (r: Option<Value>)
    ensures v.Num? ==> (r.Some? <==> Within(v.n, low, high)) && (r.Some? ==> r.value == v)
    ensures !coerce && !v.Num? ==> r.None?
    ensures v == Undefined ==> r.None?
    ensures r.Some? ==> r.value.Num? && Within(r.value.n, low, high)
  {
    var n := if coerce then NumberOf(v) else if v.Num? then Some(v.n) else None;
    if n.Some? && Within(n.value, low, high) then Some(Num(n.value)) else None
  }

  /** `z.coerce.date()` */
  function DateRule(env: Env, v: Value): (r: Option<Value>)
    ensures v == Undefined ==> r.None?
    ensures r.Some? ==> r.value.Date?
  {
    var t := DateOf(env, v);
    if t.Some? then Some(Date(t.value)) else None
  }

  /** `schema.safeParse(v)`: `None` when it fails, the parsed value when it succeeds. */
  function Apply(env: Env, rule: Rule, v: Value): Option<Value>
    decreases rule, 1
  {
    match rule
    case Text(trim, min, max) => TextRule(trim, min, max, v)
    case Email => if v.Str? && env.isEmail(v.s) then Some(v) else None
    case DateTimeText => if v.Str? && env.isDateTime(v.s) then Some(v) else None
    case Literal(text) => if v == Str(text) then Some(v) else None
    case Choice(options) => if v.Str? && v.s in options then Some(v) else None
    case Number(coerce, low, high) => NumberRule(coerce, low, high, v)
    case Boolean => if v.Bool? then Some(v) else None
    case CoerceDate => DateRule(env, v)
    case Optional(inner) => if v == Undefined then Some(Undefined) else Apply(env, inner, v)
    case Nullable(inner) => if v == Null then Some(Null) else Apply(env, inner, v)
    case Or(left, right) =>
      var l := Apply(env, left, v);
      if l.Some? then l else Apply(env, right, v)
    case Default(inner, d) => if v == Undefined then Some(d) else Apply(env, inner, v)
    case EmptyToUndefinedThen(inner) =>
      Apply(env, inner, if v == Str("") || v == Null then Undefined else v)
    case EmptyToNull(inner) =>
      var r := Apply(env, inner, v);
      if r == Some(Str("")) then Some(Null) else r
    case ArrayOf(element) =>
      if !v.Arr? then None
      else
        var items := ApplyAll(env, element, v.items, 0);
        if items.Some? then Some(Arr(items.value)) else None
    case Shape(keys, rules) =>
      if !v.Obj? || |keys| != |rules| then None
      else
        var o := ParseFields(env, keys, rules, v.fields, 0);
        if o.Some? then Some(Obj(o.value)) else None
    case Refine(inner, check) =>
      var r := Apply(env, inner, v);
      if r.Some? && r.value.Obj? && Holds(env, check, r.value.fields) then r else None
  }

  /** Every element of an array, from index `i` on. */
  function ApplyAll(env: Env, element: Rule, items: seq<Value>, i: nat): (r: Option<seq<Value>>)
    decreases ArrayOf(element), 0, |items| - i
  {
    if i >= |items| then Some([])
    else
      var head := Apply(env, element, items[i]);
      var rest := ApplyAll(env, element, items, i + 1);
      if head.Some? && rest.Some? then Some([head.value] + rest.value) else None
  }

  /** The keys of an object schema, from index `i` on; unknown keys are dropped. */
  function ParseFields(env: Env, keys: seq<string>, rules: seq<Rule>, input: Object, i: nat): Option<Object>
    requires |keys| == |rules|
    decreases Shape(keys, rules), 0, |rules| - i
  {
    if i >= |rules| then Some(map[])
    else
      var head := Apply(env, rules[i], Get(input, keys[i]));
      var rest := ParseFields(env, keys, rules, input, i + 1);
      if head.Some? && rest.Some? then Some(Put(rest.value, keys[i], head.value)) else None
  }

  predicate DistinctFrom(keys: seq<string>, i: nat) {
    forall a, b :: i <= a < b < |keys| ==> keys[a] != keys[b]
  }

  /**
   * An object schema accepts exactly when each of its keys accepts the
   * input's value for that key; the output holds the parsed value of each
   * key and nothing else.
   */
  lemma {:induction false} ParseFieldsSpec(env: Env, keys: seq<string>, rules: seq<Rule>, input: Object, i: nat)
    requires |keys| == |rules| && i <= |keys| && DistinctFrom(keys, i)
    ensures ParseFields(env, keys, rules, input, i).Some? <==>
      forall j :: i <= j < |keys| ==> Apply(env, rules[j], Get(input, keys[j])).Some?
    ensures ParseFields(env, keys, rules, input, i).Some? ==>
      var o := ParseFields(env, keys, rules, input, i).value;
      && (forall j :: i <= j < |keys| ==> Get(o, keys[j]) == Apply(env, rules[j], Get(input, keys[j])).value)
      && (forall k :: k in o ==> k in keys[i..])
    decreases |keys| - i
  {
    if i < |keys| {
      ParseFieldsSpec(env, keys, rules, input, i + 1);
      var head := Apply(env, rules[i], Get(input, keys[i]));
      var rest := ParseFields(env, keys, rules, input, i + 1);
      if head.Some? && rest.Some? {
        var o := Put(rest.value, keys[i], head.value);
        assert ParseFields(env, keys, rules, input, i) == Some(o);
        forall j | i < j < |keys|
          ensures Get(o, keys[j]) == Apply(env, rules[j], Get(input, keys[j])).value
        {
          assert keys[j] != keys[i];
        }
        forall k | k in o
          ensures k in keys[i..]
        {
          if k != keys[i] {
            assert k in rest.value;
            var m :| 0 <= m < |keys[i + 1..]| && keys[i + 1..][m] == k;
            assert keys[i..][m + 1] == k;
          } else {
            assert keys[i..][0] == k;
          }
        }
      } else {
        assert ParseFields(env, keys, rules, input, i).None?;
      }
    }
  }

  /** An object schema accepts only objects and yields an object. */
  lemma ShapeObject(env: Env, keys: seq<string>, rules: seq<Rule>, v: Value)
    requires Apply(env, Shape(keys, rules), v).Some?
    ensures v.Obj? && Apply(env, Shape(keys, rules), v).value.Obj?
  {
  }

  /** One key of a successful object parse. */
  lemma FieldOf(env: Env, keys: seq<string>, rules: seq<Rule>, input: Object, j: nat)
    requires |keys| == |rules| && j < |keys| && DistinctFrom(keys, 0)
    requires Apply(env, Shape(keys, rules), Obj(input)).Some?
    ensures Apply(env, rules[j], Get(input, keys[j])).Some?
    ensures Get(Apply(env, Shape(keys, rules), Obj(input)).value.fields, keys[j])
         == Apply(env, rules[j], Get(input, keys[j])).value
  {
    ParseFieldsSpec(env, keys, rules, input, 0);
  }

  /** Two rule lists that agree on every field of `input` parse it to the same object. */
  lemma {:induction false} ParseFieldsAgree(env: Env, keys: seq<string>, rules: seq<Rule>, others: seq<Rule>, input: Object, i: nat)
    requires |keys| == |rules| == |others|
    requires forall j :: i <= j < |keys| ==> Apply(env, rules[j], Get(input, keys[j])) == Apply(env, others[j], Get(input, keys[j]))
    ensures ParseFields(env, keys, rules, input, i) == ParseFields(env, keys, others, input, i)
    decreases |keys| - i
  {
    if i < |keys| {
      ParseFieldsAgree(env, keys, rules, others, input, i + 1);
    }
  }

  /** An object parse succeeds when every key does. */
  lemma ShapeAccepts(env: Env, keys: seq<string>, rules: seq<Rule>, input: Object)
    requires |keys| == |rules| && DistinctFrom(keys, 0)
    requires forall j :: 0 <= j < |keys| ==> Apply(env, rules[j], Get(input, keys[j])).Some?
    ensures Apply(env, Shape(keys, rules), Obj(input)).Some?
    ensures forall k :: k in Apply(env, Shape(keys, rules), Obj(input)).value.fields ==> k in keys
  {
    ParseFieldsSpec(env, keys, rules, input, 0);
  }

  /** `emptyToUndefined`: `''` and `null` become `undefined`, anything else is kept. */
  function EmptyToUndefined(v: Value): (r: Value)
    ensures r == Undefined <==> v == Undefined || v == Null || v == Str("")
    ensures r != Undefined ==> r == v
  {
    if v == Str("") || v == Null then Undefined else v
  }

  /** An optional rule accepts `undefined` and keeps it. */
  lemma OptionalAcceptsUndefined(env: Env, inner: Rule)
    ensures Apply(env, Optional(inner), Undefined) == Some(Undefined)
  {
  }

  /** A defaulted enum yields its default for `undefined`. */
  lemma DefaultChoice(env: Env, options: seq<string>, d: string, v: Value)
    ensures Apply(env, Default(Choice(options), Str(d)), v).Some? <==> v == Undefined || (v.Str? && v.s in options)
    ensures v == Undefined ==> Apply(env, Default(Choice(options), Str(d)), v) == Some(Str(d))
  {
  }

  /** A coerced number with bounds accepts a number exactly within them, and takes its default when absent. */
  lemma DefaultNumber(env: Env, low: int, high: Option<int>, d: int, v: Value)
    ensures v == Undefined ==> Apply(env, Default(Number(true, Some(low), high), Num(d)), v) == Some(Num(d))
    ensures v.Num? ==> (Apply(env, Default(Number(true, Some(low), high), Num(d)), v).Some? <==> Within(v.n, Some(low), high))
    ensures v != Undefined && Apply(env, Default(Number(true, Some(low), high), Num(d)), v).Some? ==>
      NumberOf(v).Some? && Apply(env, Default(Number(true, Some(low), high), Num(d)), v) == Some(Num(NumberOf(v).value))
  {
    if v != Undefined {
      assert Apply(env, Default(Number(true, Some(low), high), Num(d)), v) == Apply(env, Number(true, Some(low), high), v);
    }
  }

  /**
   * `.optional().or(z.literal(''))` on a bounded string: absent, empty, or
   * within the bounds, and the value is kept as it is.
   */
  lemma OptionalOrEmpty(env: Env, min: nat, max: nat, v: Value)
    ensures Apply(env, Or(Optional(Text(false, min, Some(max))), Literal("")), v).Some? <==>
      v == Undefined || v == Str("") || (v.Str? && min <= Utf16Length(v.s) <= max)
    ensures Apply(env, Or(Optional(Text(false, min, Some(max))), Literal("")), v).Some? ==>
      Apply(env, Or(Optional(Text(false, min, Some(max))), Literal("")), v) == Some(v)
  {
    assert Apply(env, Text(false, min, Some(max)), v) == TextRule(false, min, Some(max), v);
    var opt := Apply(env, Optional(Text(false, min, Some(max))), v);
    assert opt == if v == Undefined then Some(Undefined) else TextRule(false, min, Some(max), v);
    assert Apply(env, Or(Optional(Text(false, min, Some(max))), Literal("")), v)
        == if opt.Some? then opt else Apply(env, Literal(""), v);
  }

  /** `inner.optional().nullable().or(z.literal('')).transform(val => val === '' ? null : val)` */
  function BlankAsNull(inner: Rule): Rule {
    EmptyToNull(Or(Nullable(Optional(inner)), Literal("")))
  }

  /** The string checks used under `BlankAsNull` keep what they accept. */
  lemma StringChecksKeep(env: Env)
    ensures forall x :: Apply(env, DateTimeText, x).Some? ==> Apply(env, DateTimeText, x) == Some(x)
    ensures forall x :: Apply(env, Text(false, 1, None), x).Some? ==> Apply(env, Text(false, 1, None), x) == Some(x)
  {
    forall x | Apply(env, Text(false, 1, None), x).Some?
      ensures Apply(env, Text(false, 1, None), x) == Some(x)
    {
      assert Apply(env, Text(false, 1, None), x) == TextRule(false, 1, None, x);
    }
  }

  /**
   * A `BlankAsNull` field: `''` becomes `null`, `null` and `undefined` are
   * kept, anything else must pass `inner` and is kept.
   */
  lemma BlankToNull(env: Env, inner: Rule, v: Value)
    requires forall x :: Apply(env, inner, x).Some? ==> Apply(env, inner, x) == Some(x)
    ensures var r := Apply(env, BlankAsNull(inner), v);
      && (v == Str("") ==> r == Some(Null))
      && (v == Null ==> r == Some(Null))
      && (v == Undefined ==> r == Some(Undefined))
      && (v != Str("") && v != Null && v != Undefined ==> (r.Some? <==> Apply(env, inner, v).Some?))
      && (r.Some? && v != Str("") ==> r == Some(v))
  {
    var opt := Apply(env, Optional(inner), v);
    assert opt == if v == Undefined then Some(Undefined) else Apply(env, inner, v);
    var nul := Apply(env, Nullable(Optional(inner)), v);
    assert nul == if v == Null then Some(Null) else opt;
    var or := Apply(env, Or(Nullable(Optional(inner)), Literal("")), v);
    assert or == if nul.Some? then nul else Apply(env, Literal(""), v);
  }

  /** A refined rule succeeds with what its inner rule yields, and only when the check holds of it. */
  lemma RefineOf(env: Env, inner: Rule, check: Check, v: Value)
    requires Apply(env, Refine(inner, check), v).Some?
    ensures Apply(env, inner, v) == Apply(env, Refine(inner, check), v)
    ensures Apply(env, inner, v).value.Obj? && Holds(env, check, Apply(env, inner, v).value.fields)
  {
  }

  /** A refined rule accepts what its inner rule accepts when the check holds of it. */
  lemma RefineAccepts(env: Env, inner: Rule, check: Check, v: Value)
    requires Apply(env, inner, v).Some? && Apply(env, inner, v).value.Obj?
    requires Holds(env, check, Apply(env, inner, v).value.fields)
    ensures Apply(env, Refine(inner, check), v) == Apply(env, inner, v)
  {
  }

  /** An array rule accepts exactly when every element does, and yields the parsed elements in order. */
  lemma {:induction false} ApplyAllSpec(env: Env, element: Rule, items: seq<Value>, i: nat)
    requires i <= |items|
    ensures ApplyAll(env, element, items, i).Some? <==>
      forall j :: i <= j < |items| ==> Apply(env, element, items[j]).Some?
    ensures ApplyAll(env, element, items, i).Some? ==>
      var r := ApplyAll(env, element, items, i).value;
      |r| == |items| - i && forall j :: i <= j < |items| ==> r[j - i] == Apply(env, element, items[j]).value
    decreases |items| - i
  {
    if i < |items| {
      var head := Apply(env, element, items[i]);
      var rest := ApplyAll(env, element, items, i + 1);
      ApplyAllSpec(env, element, items, i + 1);
      if head.Some? && rest.Some? {
        var r := [head.value] + rest.value;
        assert ApplyAll(env, element, items, i) == Some(r);
        forall j | i < j < |items|
          ensures r[j - i] == Apply(env, element, items[j]).value
        {
          assert r[j - i] == rest.value[j - (i + 1)];
        }
      } else {
        assert ApplyAll(env, element, items, i).None?;
      }
    }
  }

  /** One element of a successful array parse. */
  lemma ElementOf(env: Env, element: Rule, v: Value, j: nat)
    requires Apply(env, ArrayOf(element), v).Some?
    ensures v.Arr? && j < |v.items| ==> Apply(env, element, v.items[j]).Some?
    ensures v.Arr? && j < |v.items| ==>
      var r := Apply(env, ArrayOf(element), v).value;
      r.Arr? && |r.items| == |v.items| && r.items[j] == Apply(env, element, v.items[j]).value
  {
    if v.Arr? {
      ApplyAllSpec(env, element, v.items, 0);
    }
  }

  /** A refined rule accepts exactly what its inner rule accepts as an object satisfying the check. */
  lemma RefineSpec(env: Env, inner: Rule, check: Check, v: Value)
    ensures Apply(env, Refine(inner, check), v).Some? <==>
      Apply(env, inner, v).Some? && Apply(env, inner, v).value.Obj? && Holds(env, check, Apply(env, inner, v).value.fields)
    ensures Apply(env, Refine(inner, check), v).Some? ==> Apply(env, Refine(inner, check), v) == Apply(env, inner, v)
  {
  }
}
