/**
 * The whitelist fold shared by the donor and the donation API modules:
 * keep the allowed keys whose value is not `undefined`, trim strings, and
 * store a string that trims to `''` as `null`.
 */
module Sanitize {
  import opened Js
  import Text

  /** The value stored for one kept key. */
  function Clean(v: Value): (r: Value)
    ensures v != Undefined ==> r != Undefined
    ensures r.Str? ==> r.s != "" && Text.Trimmed(r.s)
    ensures !v.Str? ==> r == v
    ensures v.Str? ==> r == Null || r == Str(Text.Trim(v.s))
  {
    if v.Str? then
      var t := Text.Trim(v.s);
      if t == "" then Null else Str(t)
    else v
  }

  /** Cleaning twice is cleaning once. */
  lemma CleanIdempotent(v: Value)
    ensures Clean(Clean(v)) == Clean(v)
  {
    if v.Str? && Clean(v).Str? {
      Text.TrimOfTrimmed(Clean(v).s);
    }
  }

  /** A string is stored as `null` exactly when it is empty or all white space. */
  lemma CleanNull(s: string)
    ensures Clean(Str(s)) == Null <==> Text.AllSpace(s)
  {
    Text.TrimEmpty(s);
  }

  /** The object the whitelist builds, as one map: each allowed key the input defines, its value cleaned. */
  function Whitelisted(allowed: seq<string>, input: Object): Object {
    map k | k in allowed && Get(input, k) != Undefined :: Clean(Get(input, k))
  }

  /** `allowed.reduce(...)`: the accumulator gains one key per allowed, defined input value. */
  method Whitelist(allowed: seq<string>, input: Object) returns (acc: Object)
    ensures forall k :: k in acc <==> k in allowed && Get(input, k) != Undefined
    ensures forall k :: k in acc ==> acc[k] == Clean(Get(input, k))
    ensures Defined(acc)
    ensures acc == Whitelisted(allowed, input)
  {
    acc := map[];
    for i := 0 to |allowed|
      invariant forall k :: k in acc <==> k in allowed[..i] && Get(input, k) != Undefined
      invariant forall k :: k in acc ==> acc[k] == Clean(Get(input, k))
      invariant Defined(acc)
    {
      var key := allowed[i];
      if Get(input, key) != Undefined {
        acc := acc[key := Clean(input[key])];
      }
      assert allowed[..i + 1] == allowed[..i] + [key];
    }
    assert allowed[..|allowed|] == allowed;
  }
}
