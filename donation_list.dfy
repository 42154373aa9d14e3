/**
 * The client-side donation table: the sort toggle (`handleSort`), the
 * filter chain followed by a sort (`filteredAndSortedDonations`), and the
 * type formatter (`formatDonationType`).
 *
 * Amount and date filter texts arrive already parsed (`Bound`): `parseFloat`
 * and `new Date` are not modelled, only their outcome, a number or NaN.
 * Amounts are integer cents and dates integer timestamps.
 */
module DonationList {
  import opened Js
  import opened Text

  // ---------------------------------------------------------------------
  // Sort toggle
  // ---------------------------------------------------------------------

  datatype SortChoice = SortChoice(field: string, direction: string)

  /** The next sort state after a click on the header of `clicked`. */
  function NextSort(current: SortChoice, clicked: string): (next: SortChoice)
    ensures next.field == clicked
    ensures next.direction == "asc" || next.direction == "desc"
    ensures current.field != clicked ==> next.direction == "asc"
    ensures current.field == clicked ==> (next.direction == "asc" <==> current.direction != "asc")
  {
    if current.field == clicked then
      SortChoice(clicked, if current.direction == "asc" then "desc" else "asc")
    else SortChoice(clicked, "asc")
  }

  /** Two clicks on the column already sorted restore its direction. */
  lemma ClickTwiceRestores(current: SortChoice)
    requires current.direction == "asc" || current.direction == "desc"
    ensures NextSort(NextSort(current, current.field), current.field) == current
  {
  }

  /** The `sortField` / `sortDirection` state of the table. */
  class SortState {
    var field: string
    var direction: string

    /** `useState('date')`, `useState('desc')` */
    constructor ()
      ensures field == "date" && direction == "desc"
    {
      field := "date";
      direction := "desc";
    }

    /** `handleSort(field)` */
    method HandleSort(clicked: string)
      modifies this
      ensures SortChoice(field, direction) == NextSort(old(SortChoice(field, direction)), clicked)
    {
      if field == clicked {
        direction := if direction == "asc" then "desc" else "asc";
      } else {
        field := clicked;
        direction := "asc";
      }
    }
  }

  // ---------------------------------------------------------------------
  // Donations and filters
  // ---------------------------------------------------------------------

  datatype DonorRef = DonorRef(firstName: Option<string>, lastName: Option<string>, email: Option<string>)
  datatype CampaignRef = CampaignRef(name: Option<string>)

  datatype Donation = Donation(
    donor: Option<DonorRef>,
    campaign: Option<CampaignRef>,
    donationType: string,
    amount: int,
    date: int)

  /** A parsed numeric or date filter: left blank, a value, or NaN / Invalid Date. */
  datatype Bound = Blank | At(v: int) | NotANumber

  datatype Filters = Filters(
    donorName: string,
    donationType: string,
    minAmount: Bound,
    maxAmount: Bound,
    startDate: Bound,
    endDate: Bound)

  /** `o?.toLowerCase().includes(search)` */
  predicate Includes(o: Option<string>, search: string) {
    o.Some? && Contains(Lower(o.value), search)
  }

  /** The donor-name search against first name, last name and email. */
  predicate DonorMatches(d: Donation, search: string) {
    d.donor.Some? &&
    (Includes(d.donor.value.firstName, search) || Includes(d.donor.value.lastName, search)
     || Includes(d.donor.value.email, search))
  }

  /** `x >= bound`, where a comparison with NaN is false. */
  predicate AtLeast(x: int, b: Bound) {
    match b
    case Blank => true
    case At(v) => x >= v
    case NotANumber => false
  }

  /** `x <= bound`, where a comparison with NaN is false. */
  predicate AtMost(x: int, b: Bound) {
    match b
    case Blank => true
    case At(v) => x <= v
    case NotANumber => false
  }

  /** The `n`-th filter of the chain; an empty filter keeps everything. */
  predicate Holds(d: Donation, f: Filters, n: nat) {
    if n == 0 then f.donorName == "" || DonorMatches(d, Lower(f.donorName))
    else if n == 1 then f.donationType == "" || d.donationType == f.donationType
    else if n == 2 then AtLeast(d.amount, f.minAmount)
    else if n == 3 then AtMost(d.amount, f.maxAmount)
    else if n == 4 then AtLeast(d.date, f.startDate)
    else if n == 5 then AtMost(d.date, f.endDate)
    else true
  }

  /** The first `n` filters all keep `d`. */
  predicate MatchesUpTo(d: Donation, f: Filters, n: nat) {
    if n == 0 then true else MatchesUpTo(d, f, n - 1) && Holds(d, f, n - 1)
  }

  /** A donation survives the whole chain: every active filter keeps it. */
  predicate Matches(d: Donation, f: Filters) {
    && (f.donorName != "" ==> DonorMatches(d, Lower(f.donorName)))
    && (f.donationType != "" ==> d.donationType == f.donationType)
    && AtLeast(d.amount, f.minAmount) && AtMost(d.amount, f.maxAmount)
    && AtLeast(d.date, f.startDate) && AtMost(d.date, f.endDate)
  }

  /** Passing the six steps of the chain one after another is passing every filter. */
  lemma MatchesAllSteps(d: Donation, f: Filters)
    ensures MatchesUpTo(d, f, 6) <==> Matches(d, f)
  {
    assert MatchesUpTo(d, f, 1) == Holds(d, f, 0);
    assert MatchesUpTo(d, f, 2) == (MatchesUpTo(d, f, 1) && Holds(d, f, 1));
    assert MatchesUpTo(d, f, 3) == (MatchesUpTo(d, f, 2) && Holds(d, f, 2));
    assert MatchesUpTo(d, f, 4) == (MatchesUpTo(d, f, 3) && Holds(d, f, 3));
    assert MatchesUpTo(d, f, 5) == (MatchesUpTo(d, f, 4) && Holds(d, f, 4));
  }

  /** `s.filter(p)` */
  function Filter<T>(s: seq<T>, p: T -> bool): (r: seq<T>)
    ensures |r| <= |s|
    ensures forall x :: x in r ==> x in s && p(x)
  {
    if s == [] then [] else (if p(s[0]) then [s[0]] else []) + Filter(s[1..], p)
  }

  /** The donations kept by the first `n` filters, in their original order. */
  function KeepUpTo(s: seq<Donation>, f: Filters, n: nat): (r: seq<Donation>)
    ensures |r| <= |s|
  {
    if s == [] then [] else (if MatchesUpTo(s[0], f, n) then [s[0]] else []) + KeepUpTo(s[1..], f, n)
  }

  function Kept(s: seq<Donation>, f: Filters): seq<Donation> {
    KeepUpTo(s, f, 6)
  }

  lemma {:induction false} KeepNothing(s: seq<Donation>, f: Filters)
    ensures KeepUpTo(s, f, 0) == s
  {
    if s != [] {
      KeepNothing(s[1..], f);
      assert [s[0]] + s[1..] == s;
    }
  }

  /** Filtering the survivors of `n` filters with the `n`-th filter gives the survivors of `n + 1`. */
  lemma {:induction false} KeepStep(s: seq<Donation>, f: Filters, n: nat, p: Donation -> bool)
    requires forall d :: p(d) == Holds(d, f, n)
    ensures Filter(KeepUpTo(s, f, n), p) == KeepUpTo(s, f, n + 1)
  {
    if s != [] {
      KeepStep(s[1..], f, n, p);
      var head := if MatchesUpTo(s[0], f, n) then [s[0]] else [];
      var rest := KeepUpTo(s[1..], f, n);
      FilterAppend(head, rest, p);
    }
  }

  /** An inactive filter keeps every donation. */
  lemma {:induction false} KeepSkip(s: seq<Donation>, f: Filters, n: nat)
    requires forall d :: Holds(d, f, n)
    ensures KeepUpTo(s, f, n + 1) == KeepUpTo(s, f, n)
  {
    if s != [] {
      KeepSkip(s[1..], f, n);
    }
  }

  lemma {:induction false} FilterAppend<T>(a: seq<T>, b: seq<T>, p: T -> bool)
    ensures Filter(a + b, p) == Filter(a, p) + Filter(b, p)
  {
    if a != [] {
      assert (a + b)[1..] == a[1..] + b;
      FilterAppend(a[1..], b, p);
    } else {
      assert a + b == b;
    }
  }

  /** Each donation occurs among the survivors as often as in the input when it passes, never otherwise. */
  lemma {:induction false} KeepCount(s: seq<Donation>, f: Filters, n: nat, d: Donation)
    ensures multiset(KeepUpTo(s, f, n))[d] == if MatchesUpTo(d, f, n) then multiset(s)[d] else 0
  {
    if s != [] {
      KeepCount(s[1..], f, n, d);
      assert s == [s[0]] + s[1..];
    }
  }

  /** With every filter blank the chain keeps the whole list in order. */
  lemma {:induction false} KeepAllWhenBlank(s: seq<Donation>, f: Filters)
    requires f.donorName == "" && f.donationType == ""
    requires f.minAmount == Blank && f.maxAmount == Blank && f.startDate == Blank && f.endDate == Blank
    ensures Kept(s, f) == s
  {
    if s != [] {
      KeepAllWhenBlank(s[1..], f);
      MatchesAllSteps(s[0], f);
      assert [s[0]] + s[1..] == s;
    }
  }

  // ---------------------------------------------------------------------
  // Sorting
  // ---------------------------------------------------------------------

  /** The value a donation is compared by; `NoKey` for an unknown column. */
  datatype SortKey = NoKey | NumKey(n: int) | StrKey(s: string)

  /** A template literal renders a missing value as `undefined`. */
  function Render(o: Option<string>): string {
    if o.Some? then o.value else "undefined"
  }

  function KeyOf(d: Donation, field: string): SortKey {
    if field == "date" then NumKey(d.date)
    else if field == "donor" then
      var last := if d.donor.Some? then d.donor.value.lastName else None;
      var first := if d.donor.Some? then d.donor.value.firstName else None;
      StrKey(Lower(Render(last) + " " + Render(first)))
    else if field == "amount" then NumKey(d.amount)
    else if field == "type" then StrKey(d.donationType)
    else if field == "campaign" then
      StrKey(if d.campaign.Some? && d.campaign.value.name.Some? then d.campaign.value.name.value else "")
    else NoKey
  }

  /** The columns the comparator knows; any other column has no key. */
  predicate KnownField(field: string) {
    field == "date" || field == "amount" || field == "donor" || field == "type" || field == "campaign"
  }

  /** The key function of a column, as the comparator's `switch (sortField)` selects it. */
  function ColumnKey(field: string): Donation -> SortKey {
    d => KeyOf(d, field)
  }

  predicate SameKind(x: SortKey, y: SortKey) {
    (x.NoKey? && y.NoKey?) || (x.NumKey? && y.NumKey?) || (x.StrKey? && y.StrKey?)
  }

  /** All keys are numbers, all are strings, or none exists. */
  ghost predicate OneKind(key: Donation -> SortKey) {
    forall a, b :: SameKind(key(a), key(b))
  }

  /** One column gives keys of one kind; an unknown column gives none. */
  lemma ColumnKeyKinds(field: string)
    ensures OneKind(ColumnKey(field))
    ensures forall d :: ColumnKey(field)(d).NoKey? <==> !KnownField(field)
  {
  }

  /** JavaScript's `<` on two keys of the same column. */
  predicate KeyLess(x: SortKey, y: SortKey) {
    match (x, y)
    case (NumKey(a), NumKey(b)) => a < b
    case (StrKey(a), StrKey(b)) => LexLess(a, b)
    case _ => false
  }

  lemma KeyLessAsymmetric(x: SortKey, y: SortKey)
    ensures !(KeyLess(x, y) && KeyLess(y, x))
  {
    if x.StrKey? && y.StrKey? {
      LexLessAsymmetric(x.s, y.s);
    }
  }

  lemma KeyLessEqTransitive(x: SortKey, y: SortKey, z: SortKey)
    requires SameKind(x, y) && SameKind(y, z)
    requires !KeyLess(y, x) && !KeyLess(z, y)
    ensures !KeyLess(z, x)
  {
    if x.StrKey? {
      LexLessEqTransitive(x.s, y.s, z.s);
    }
  }

  /** The comparator passed to `result.sort`: the sign of the key order, flipped unless ascending. */
  function Compare(a: Donation, b: Donation, key: Donation -> SortKey, dir: string): int {
    if KeyLess(key(a), key(b)) then (if dir == "asc" then -1 else 1)
    else if KeyLess(key(b), key(a)) then (if dir == "asc" then 1 else -1)
    else 0
  }

  /** `a` may stand before `b`: ascending or descending by key. */
  predicate InOrder(a: Donation, b: Donation, key: Donation -> SortKey, dir: string) {
    if dir == "asc" then !KeyLess(key(b), key(a)) else !KeyLess(key(a), key(b))
  }

  predicate Sorted(s: seq<Donation>, key: Donation -> SortKey, dir: string) {
    forall i, j :: 0 <= i < j < |s| ==> InOrder(s[i], s[j], key, dir)
  }

  /** A non-positive comparison is exactly the requested order, and the comparator is antisymmetric. */
  lemma CompareOrder(a: Donation, b: Donation, key: Donation -> SortKey, dir: string)
    ensures Compare(a, b, key, dir) <= 0 <==> InOrder(a, b, key, dir)
    ensures Compare(a, b, key, dir) == -Compare(b, a, key, dir)
  {
    KeyLessAsymmetric(key(a), key(b));
  }

  lemma InOrderTransitive(a: Donation, b: Donation, c: Donation, key: Donation -> SortKey, dir: string)
    requires OneKind(key)
    requires InOrder(a, b, key, dir) && InOrder(b, c, key, dir)
    ensures InOrder(a, c, key, dir)
  {
    if dir == "asc" {
      KeyLessEqTransitive(key(a), key(b), key(c));
    } else {
      KeyLessEqTransitive(key(c), key(b), key(a));
    }
  }

  /** Donations with the same key compare as equal. */
  lemma SameKeyCompares(a: Donation, b: Donation, key: Donation -> SortKey, dir: string)
    ensures key(a) == key(b) ==> Compare(a, b, key, dir) == 0
  {
    if key(a).StrKey? {
      LexLessIrreflexive(key(a).s);
    }
  }

  /** Insert `x` in front of the first element it does not follow. */
  function Insert(t: seq<Donation>, x: Donation, key: Donation -> SortKey, dir: string): (r: seq<Donation>)
    ensures |r| == |t| + 1
  {
    if t == [] then [x]
    else if Compare(x, t[0], key, dir) <= 0 then [x] + t
    else [t[0]] + Insert(t[1..], x, key, dir)
  }

  /** The stable sort `result.sort(compare)` computes: each element goes in front of its equals. */
  function SortBy(s: seq<Donation>, key: Donation -> SortKey, dir: string): (r: seq<Donation>)
    ensures |r| == |s|
  {
    if s == [] then [] else Insert(SortBy(s[1..], key, dir), s[0], key, dir)
  }

  lemma {:induction false} InsertPermutes(t: seq<Donation>, x: Donation, key: Donation -> SortKey, dir: string)
    ensures multiset(Insert(t, x, key, dir)) == multiset(t) + multiset{x}
  {
    if t != [] && Compare(x, t[0], key, dir) > 0 {
      InsertPermutes(t[1..], x, key, dir);
      assert t == [t[0]] + t[1..];
    }
  }

  /** The sort only reorders: every donation occurs as often as before. */
  lemma {:induction false} SortByPermutes(s: seq<Donation>, key: Donation -> SortKey, dir: string)
    ensures multiset(SortBy(s, key, dir)) == multiset(s)
  {
    if s != [] {
      SortByPermutes(s[1..], key, dir);
      InsertPermutes(SortBy(s[1..], key, dir), s[0], key, dir);
      assert s == [s[0]] + s[1..];
    }
  }

  /** `x` goes in front of a sorted `t` whose head it does not follow. */
  lemma InsertSortedFront(t: seq<Donation>, x: Donation, key: Donation -> SortKey, dir: string)
    requires OneKind(key) && Sorted(t, key, dir)
    requires t != [] && Compare(x, t[0], key, dir) <= 0
    ensures Sorted([x] + t, key, dir)
  {
    CompareOrder(x, t[0], key, dir);
    forall j | 0 <= j < |t|
      ensures InOrder(x, t[j], key, dir)
    {
      if j > 0 {
        InOrderTransitive(x, t[0], t[j], key, dir);
      }
    }
    var r := [x] + t;
    forall i, j | 0 <= i < j < |r|
      ensures InOrder(r[i], r[j], key, dir)
    {
      if i > 0 {
        assert r[i] == t[i - 1] && r[j] == t[j - 1];
      } else {
        assert r[j] == t[j - 1];
      }
    }
  }

  /** The head of a sorted `t` is in order with every element of the rest with `x` inserted. */
  lemma InsertedBehindHead(t: seq<Donation>, x: Donation, key: Donation -> SortKey, dir: string)
    requires Sorted(t, key, dir) && t != [] && InOrder(t[0], x, key, dir)
    ensures forall j :: 0 <= j < |Insert(t[1..], x, key, dir)| ==> InOrder(t[0], Insert(t[1..], x, key, dir)[j], key, dir)
  {
    var rest := Insert(t[1..], x, key, dir);
    InsertPermutes(t[1..], x, key, dir);
    forall j | 0 <= j < |rest|
      ensures InOrder(t[0], rest[j], key, dir)
    {
      assert rest[j] in multiset(rest);
      if rest[j] != x {
        assert rest[j] in multiset(t[1..]);
        var k :| 0 <= k < |t[1..]| && t[1..][k] == rest[j];
        assert t[k + 1] == rest[j];
      }
    }
  }

  lemma {:induction false} InsertSorted(t: seq<Donation>, x: Donation, key: Donation -> SortKey, dir: string)
    requires OneKind(key) && Sorted(t, key, dir)
    ensures Sorted(Insert(t, x, key, dir), key, dir)
  {
    if t == [] {
    } else if Compare(x, t[0], key, dir) <= 0 {
      InsertSortedFront(t, x, key, dir);
    } else {
      CompareOrder(t[0], x, key, dir);
      var rest := Insert(t[1..], x, key, dir);
      InsertSorted(t[1..], x, key, dir);
      InsertedBehindHead(t, x, key, dir);
      var r := [t[0]] + rest;
      assert Insert(t, x, key, dir) == r;
      forall i, j | 0 <= i < j < |r|
        ensures InOrder(r[i], r[j], key, dir)
      {
        if i > 0 {
          assert r[i] == rest[i - 1] && r[j] == rest[j - 1];
        } else {
          assert r[j] == rest[j - 1];
        }
      }
    }
  }

  /** The sort orders by the key, ascending or descending. */
  lemma {:induction false} SortBySorted(s: seq<Donation>, key: Donation -> SortKey, dir: string)
    requires OneKind(key)
    ensures Sorted(SortBy(s, key, dir), key, dir)
  {
    if s != [] {
      SortBySorted(s[1..], key, dir);
      InsertSorted(SortBy(s[1..], key, dir), s[0], key, dir);
    }
  }

  /** The donations with key `k`, in order. */
  function Ties(s: seq<Donation>, k: SortKey, key: Donation -> SortKey): seq<Donation> {
    if s == [] then [] else TieHead(s[0], k, key) + Ties(s[1..], k, key)
  }

  function TieHead(y: Donation, k: SortKey, key: Donation -> SortKey): seq<Donation> {
    if key(y) == k then [y] else []
  }

  lemma TiesCons(y: Donation, s: seq<Donation>, k: SortKey, key: Donation -> SortKey)
    ensures Ties([y] + s, k, key) == TieHead(y, k, key) + Ties(s, k, key)
  {
    assert ([y] + s)[1..] == s;
  }

  lemma {:induction false} InsertTies(t: seq<Donation>, x: Donation, k: SortKey, key: Donation -> SortKey, dir: string)
    ensures Ties(Insert(t, x, key, dir), k, key) == TieHead(x, k, key) + Ties(t, k, key)
  {
    if t == [] {
      TiesCons(x, [], k, key);
    } else if Compare(x, t[0], key, dir) <= 0 {
      TiesCons(x, t, k, key);
    } else {
      InsertTies(t[1..], x, k, key, dir);
      InsertTiesBehind(t, x, k, key, dir);
    }
  }

  /** The step of `InsertTies` where `x` goes behind the head of `t`. */
  lemma InsertTiesBehind(t: seq<Donation>, x: Donation, k: SortKey, key: Donation -> SortKey, dir: string)
    requires t != [] && Compare(x, t[0], key, dir) > 0
    requires Ties(Insert(t[1..], x, key, dir), k, key) == TieHead(x, k, key) + Ties(t[1..], k, key)
    ensures Ties(Insert(t, x, key, dir), k, key) == TieHead(x, k, key) + Ties(t, k, key)
  {
    var rest := Insert(t[1..], x, key, dir);
    assert Insert(t, x, key, dir) == [t[0]] + rest;
    TiesCons(t[0], rest, k, key);
    TiesCons(t[0], t[1..], k, key);
    assert [t[0]] + t[1..] == t;
    SameKeyCompares(x, t[0], key, dir);
    if key(x) == k {
      assert TieHead(t[0], k, key) == [];
    } else {
      assert TieHead(x, k, key) == [];
    }
  }

  /** Stability: donations with equal keys keep their relative order. */
  lemma {:induction false} SortByStable(s: seq<Donation>, k: SortKey, key: Donation -> SortKey, dir: string)
    ensures Ties(SortBy(s, key, dir), k, key) == Ties(s, k, key)
  {
    if s != [] {
      SortByStable(s[1..], k, key, dir);
      InsertTies(SortBy(s[1..], key, dir), s[0], k, key, dir);
    }
  }

  /** An unknown column compares every pair as equal: the order is kept. */
  lemma {:induction false} SortByUnknownField(s: seq<Donation>, field: string, dir: string)
    requires !KnownField(field)
    ensures SortBy(s, ColumnKey(field), dir) == s
  {
    if s != [] {
      SortByUnknownField(s[1..], field, dir);
      assert [s[0]] + s[1..] == s;
    }
  }

  /** The memoised `filteredAndSortedDonations`. */
  method FilteredAndSorted(donations: seq<Donation>, filters: Filters, field: string, dir: string)
    returns (result: seq<Donation>)
    ensures result == SortBy(Kept(donations, filters), ColumnKey(field), dir)
    ensures forall d :: multiset(result)[d] == if Matches(d, filters) then multiset(donations)[d] else 0
    ensures |result| <= |donations|
    ensures Sorted(result, ColumnKey(field), dir)
  {
    result := FilterChain(donations, filters);
    forall d
      ensures multiset(result)[d] == if Matches(d, filters) then multiset(donations)[d] else 0
    {
      KeepCount(donations, filters, 6, d);
      MatchesAllSteps(d, filters);
    }
    ColumnKeyKinds(field);
    SortBySorted(result, ColumnKey(field), dir);
    SortByPermutes(result, ColumnKey(field), dir);
    result := SortBy(result, ColumnKey(field), dir);
  }

  /** The six `result = result.filter(...)` steps. */
  method FilterChain(donations: seq<Donation>, filters: Filters) returns (result: seq<Donation>)
    ensures result == Kept(donations, filters)
  {
    result := donations;
    KeepNothing(donations, filters);
    if filters.donorName != "" {
      var search := Lower(filters.donorName);
      var p := (d: Donation) => DonorMatches(d, search);
      KeepStep(donations, filters, 0, p);
      result := Filter(result, p);
    } else {
      KeepSkip(donations, filters, 0);
    }
    if filters.donationType != "" {
      var p := (d: Donation) => d.donationType == filters.donationType;
      KeepStep(donations, filters, 1, p);
      result := Filter(result, p);
    } else {
      KeepSkip(donations, filters, 1);
    }
    result := AmountFilters(donations, filters, result);
    result := DateFilters(donations, filters, result);
  }

  /** The `minAmount` and `maxAmount` steps of the chain. */
  method AmountFilters(donations: seq<Donation>, filters: Filters, current: seq<Donation>)
    returns (result: seq<Donation>)
    requires current == KeepUpTo(donations, filters, 2)
    ensures result == KeepUpTo(donations, filters, 4)
  {
    result := current;
    if filters.minAmount != Blank {
      var p := (d: Donation) => AtLeast(d.amount, filters.minAmount);
      KeepStep(donations, filters, 2, p);
      result := Filter(result, p);
    } else {
      KeepSkip(donations, filters, 2);
    }
    if filters.maxAmount != Blank {
      var p := (d: Donation) => AtMost(d.amount, filters.maxAmount);
      KeepStep(donations, filters, 3, p);
      result := Filter(result, p);
    } else {
      KeepSkip(donations, filters, 3);
    }
  }

  /** The `startDate` and `endDate` steps of the chain. */
  method DateFilters(donations: seq<Donation>, filters: Filters, current: seq<Donation>)
    returns (result: seq<Donation>)
    requires current == KeepUpTo(donations, filters, 4)
    ensures result == KeepUpTo(donations, filters, 6)
  {
    result := current;
    if filters.startDate != Blank {
      var p := (d: Donation) => AtLeast(d.date, filters.startDate);
      KeepStep(donations, filters, 4, p);
      result := Filter(result, p);
    } else {
      KeepSkip(donations, filters, 4);
    }
    if filters.endDate != Blank {
      var p := (d: Donation) => AtMost(d.date, filters.endDate);
      KeepStep(donations, filters, 5, p);
      result := Filter(result, p);
    } else {
      KeepSkip(donations, filters, 5);
    }
  }

  // ---------------------------------------------------------------------
  // Type formatting
  // ---------------------------------------------------------------------

  /** `s.replace(/_/g, ' ')` */
  function Underscores(s: string): (r: string)
    ensures |r| == |s|
    ensures forall i :: 0 <= i < |s| ==> r[i] == if s[i] == '_' then ' ' else s[i]
  {
    if s == [] then [] else [if s[0] == '_' then ' ' else s[0]] + Underscores(s[1..])
  }

  /** `w.charAt(0) + w.slice(1).toLowerCase()` */
  function Capitalized(w: string): string {
    if w == [] then [] else [w[0]] + Lower(w[1..])
  }

  function CapitalizeAll(ws: seq<string>): (r: seq<string>)
    ensures |r| == |ws|
  {
    if ws == [] then [] else [Capitalized(ws[0])] + CapitalizeAll(ws[1..])
  }

  /** `formatDonationType(type)`; a missing type stays missing. */
  function FormatDonationType(t: Option<string>): Option<string> {
    if t.None? then None
    else Some(Join(CapitalizeAll(Split(Underscores(t.value), ' ')), " "))
  }

  /**
   * The same formatting, one character at a time: `atStart` says whether
   * the previous character ended a word.
   */
  function WordCase(t: string, atStart: bool): (r: string)
    ensures |r| == |t|
  {
    if t == [] then []
    else
      var head := if t[0] == ' ' then ' ' else if atStart then t[0] else LowerChar(t[0]);
      [head] + WordCase(t[1..], t[0] == ' ')
  }

  /** Spaces stay; the first character of a word is kept and the others are lower-cased. */
  lemma {:induction false} WordCaseChars(t: string, atStart: bool)
    ensures |t| > 0 ==>
      WordCase(t, atStart)[0] == if t[0] == ' ' then ' ' else if atStart then t[0] else LowerChar(t[0])
    ensures forall i :: 1 <= i < |t| ==>
      WordCase(t, atStart)[i] == if t[i] == ' ' then ' ' else if t[i - 1] == ' ' then t[i] else LowerChar(t[i])
  {
    if t != [] {
      var rest := WordCase(t[1..], t[0] == ' ');
      WordCaseChars(t[1..], t[0] == ' ');
      forall i | 1 <= i < |t|
        ensures WordCase(t, atStart)[i] == if t[i] == ' ' then ' ' else if t[i - 1] == ' ' then t[i] else LowerChar(t[i])
      {
        assert WordCase(t, atStart)[i] == rest[i - 1];
        assert t[1..][i - 1] == t[i];
        if i >= 2 {
          assert t[1..][i - 2] == t[i - 1];
        }
      }
    }
  }

  /** The rest of a word lower-cased, followed by the remaining words. */
  function TailWords(ws: seq<string>): string
    requires |ws| >= 1
  {
    Lower(ws[0]) + (if |ws| >= 2 then " " + Join(CapitalizeAll(ws[1..]), " ") else "")
  }

  lemma {:induction false} JoinCons(w: string, ws: seq<string>)
    ensures Join([w] + ws, " ") == w + (if |ws| >= 1 then " " + Join(ws, " ") else "")
  {
    assert ([w] + ws)[1..] == ws;
  }

  lemma {:induction false} FormatFromStart(t: string)
    ensures Join(CapitalizeAll(Split(t, ' ')), " ") == WordCase(t, true)
    decreases |t|, 1
  {
    if t == [] {
    } else {
      var rest := Split(t[1..], ' ');
      if t[0] == ' ' {
        FormatFromStart(t[1..]);
        assert CapitalizeAll([""] + rest) == [""] + CapitalizeAll(rest);
        JoinCons("", CapitalizeAll(rest));
      } else {
        FormatInWord(t[1..]);
        var w := [t[0]] + rest[0];
        assert Split(t, ' ') == [w] + rest[1..];
        assert CapitalizeAll([w] + rest[1..]) == [Capitalized(w)] + CapitalizeAll(rest[1..]);
        assert w[1..] == rest[0];
        JoinCons(Capitalized(w), CapitalizeAll(rest[1..]));
      }
    }
  }

  lemma {:induction false} FormatInWord(u: string)
    ensures TailWords(Split(u, ' ')) == WordCase(u, false)
    decreases |u|, 0
  {
    if u == [] {
    } else {
      var rest := Split(u[1..], ' ');
      if u[0] == ' ' {
        FormatFromStart(u[1..]);
        assert Split(u, ' ') == [""] + rest;
        assert ([""] + rest)[1..] == rest;
      } else {
        FormatInWord(u[1..]);
        var w := [u[0]] + rest[0];
        assert Split(u, ' ') == [w] + rest[1..];
        assert ([w] + rest[1..])[1..] == rest[1..];
        LowerAppend([u[0]], rest[0]);
      }
    }
  }

  /** `formatDonationType` keeps the length and cases each word as its first character followed by lower case. */
  lemma FormatIsWordCase(t: string)
    ensures FormatDonationType(Some(t)) == Some(WordCase(Underscores(t), true))
  {
    FormatFromStart(Underscores(t));
  }

  lemma UnderscoresOneTime()
    ensures Underscores("ONE_TIME") == "ONE TIME"
  {
    var s := "ONE_TIME";
    var u := Underscores(s);
    assert |s| == 8 && |u| == 8;
    assert s[0] == 'O' && s[1] == 'N' && s[2] == 'E' && s[3] == '_';
    assert s[4] == 'T' && s[5] == 'I' && s[6] == 'M' && s[7] == 'E';
    assert u[0] == 'O' && u[1] == 'N' && u[2] == 'E' && u[3] == ' ';
    assert u[4] == 'T' && u[5] == 'I' && u[6] == 'M' && u[7] == 'E';
  }

  lemma WordCaseOneTime()
    ensures WordCase("ONE TIME", true) == "One Time"
  {
    var u := "ONE TIME";
    var r := WordCase(u, true);
    WordCaseChars(u, true);
    assert |u| == 8 && |r| == 8;
    assert u[0] == 'O' && u[1] == 'N' && u[2] == 'E' && u[3] == ' ';
    assert u[4] == 'T' && u[5] == 'I' && u[6] == 'M' && u[7] == 'E';
    assert LowerChar('N') == 'n' && LowerChar('E') == 'e';
    assert LowerChar('I') == 'i' && LowerChar('M') == 'm';
    assert r[0] == 'O' && r[1] == 'n' && r[2] == 'e' && r[3] == ' ';
    assert r[4] == 'T' && r[5] == 'i' && r[6] == 'm' && r[7] == 'e';
  }

  /** `ONE_TIME` is shown as `One Time`. */
  lemma FormatOneTime()
    ensures FormatDonationType(Some("ONE_TIME")) == Some("One Time")
  {
    FormatIsWordCase("ONE_TIME");
    UnderscoresOneTime();
    WordCaseOneTime();
  }
}
