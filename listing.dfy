/**
 * The wheel-specification listing: which rows a set of filters selects, how
 * many there are, which page of them is returned, and the shape each row is
 * returned in.
 */
module Listing {
  import opened Common
  import opened Schemas
  import opened Records

  // ------------------------------------------------- case-insensitive search

  /** ASCII lower-casing of one character; every other character is left as it is. */
  function LowerChar(c: char): char {
    if 'A' <= c <= 'Z' then (c as int + 32) as char else c
  }

  /**
   * ASCII lower-casing of a string: no upper-case letter is left, each one
   * becomes its lower-case letter, and every other character is kept.
   */
  function Lower(s: string): (r: string)
    ensures |r| == |s|
    ensures forall i :: 0 <= i < |r| ==> !('A' <= r[i] <= 'Z')
    ensures forall i :: 0 <= i < |s| && 'A' <= s[i] <= 'Z' ==> r[i] as int == s[i] as int + 32
    ensures forall i :: 0 <= i < |s| && !('A' <= s[i] <= 'Z') ==> r[i] == s[i]
  {
    seq(|s|, i requires 0 <= i < |s| => LowerChar(s[i]))
  }

  /** `t` occurs in `s` starting at position `i`. */
  predicate OccursAt(s: string, t: string, i: int) {
    0 <= i && i + |t| <= |s| && s[i..i + |t|] == t
  }

  /** A left-to-right search for `t` in `s`; it succeeds exactly when `t` occurs somewhere in `s`. */
  function Contains(s: string, t: string): (b: bool)
    ensures b <==> exists i :: OccursAt(s, t, i)
  {
    if |s| < |t| then
      assert forall i :: !OccursAt(s, t, i);
      false
    else if s[..|t|] == t then
      assert OccursAt(s, t, 0);
      true
    else
      var rest := Contains(s[1..], t);
      assert forall i :: OccursAt(s[1..], t, i) <==> OccursAt(s, t, i + 1) by {
        forall i ensures OccursAt(s[1..], t, i) <==> OccursAt(s, t, i + 1) {
          if 0 <= i && i + |t| <= |s| - 1 {
            assert s[1..][i..i + |t|] == s[i + 1..i + 1 + |t|];
          }
        }
      }
      assert !OccursAt(s, t, 0);
      assert (exists i :: OccursAt(s, t, i)) ==> exists i :: OccursAt(s[1..], t, i) by {
        if exists i :: OccursAt(s, t, i) {
          var i :| OccursAt(s, t, i);
          assert OccursAt(s[1..], t, i - 1);
        }
      }
      rest
  }

  /** `column ILIKE '%term%'`: the term occurs in the column, ignoring ASCII case. */
  predicate ILike(column: string, term: string) {
    Contains(Lower(column), Lower(term))
  }

  /** Every value contains itself, so a row is always found by its own wheel number. */
  lemma ILikeItself(s: string)
    ensures ILike(s, s)
  {
    assert OccursAt(Lower(s), Lower(s), 0);
  }

  /** Case does not matter on either side: "wh1" finds "WH100". */
  lemma ILikeIgnoresCase(column: string, term: string)
    ensures ILike(column, term) <==> ILike(Lower(column), Lower(term))
  {
    LowerIdempotent(column);
    LowerIdempotent(term);
  }

  lemma LowerIdempotent(s: string)
    ensures Lower(Lower(s)) == Lower(s)
  {
  }

  // ---------------------------------------------------------------- filters

  /** A string query parameter constrains the listing only when it is sent and not empty. */
  predicate Supplied(o: Option<string>) {
    o.Some? && o.value != ""
  }

  /** One WHERE condition of the listing query. */
  datatype Criterion =
    | WheelNumberLike(term: string)
    | CoachNumberLike(term: string)
    | ConditionIs(condition: Condition)
    | ManufacturerLike(term: string)
    | StatusIs(status: Status)

  /** A row meets one condition; a row without a manufacturer meets no manufacturer condition. */
  predicate Satisfies(r: WheelRecord, c: Criterion) {
    match c
    case WheelNumberLike(t) => ILike(r.spec.wheelNumber, t)
    case CoachNumberLike(t) => ILike(r.spec.coachNumber, t)
    case ConditionIs(k) => r.spec.condition == Some(k)
    case ManufacturerLike(t) => r.spec.manufacturer.Some? && ILike(r.spec.manufacturer.value, t)
    case StatusIs(s) => r.spec.status == Some(s)
  }

  /** The rows of `rs` for which `p` holds, in their original order. */
  function Filter(rs: seq<WheelRecord>, p: WheelRecord -> bool): (r: seq<WheelRecord>)
    ensures |r| <= |rs|
    ensures forall x :: x in r <==> x in rs && p(x)
  {
    if rs == [] then []
    else (if p(rs[0]) then [rs[0]] else []) + Filter(rs[1..], p)
  }

  lemma {:induction false} FilterFilter(rs: seq<WheelRecord>, p: WheelRecord -> bool, q: WheelRecord -> bool)
    ensures Filter(Filter(rs, p), q) == Filter(rs, x => p(x) && q(x))
  {
    if rs != [] {
      FilterFilter(rs[1..], p, q);
      var head := if p(rs[0]) then [rs[0]] else [];
      FilterAppend(head, Filter(rs[1..], p), q);
      if p(rs[0]) {
        assert Filter(head, q) == if q(rs[0]) then [rs[0]] else [];
      }
    }
  }

  lemma {:induction false} FilterAppend(a: seq<WheelRecord>, b: seq<WheelRecord>, p: WheelRecord -> bool)
    ensures Filter(a + b, p) == Filter(a, p) + Filter(b, p)
  {
    if a != [] {
      assert (a + b)[1..] == a[1..] + b;
      FilterAppend(a[1..], b, p);
    } else {
      assert a + b == b;
    }
  }

  lemma {:induction false} FilterSame(rs: seq<WheelRecord>, p: WheelRecord -> bool, q: WheelRecord -> bool)
    requires forall x :: x in rs ==> p(x) == q(x)
    ensures Filter(rs, p) == Filter(rs, q)
  {
    if rs != [] {
      FilterSame(rs[1..], p, q);
    }
  }

  /** The rows meeting one condition. */
  function Where(rs: seq<WheelRecord>, c: Criterion): seq<WheelRecord> {
    Filter(rs, x => Satisfies(x, c))
  }

  /**
   * The `k`-th optional WHERE step of the listing query (k = 1..5: wheel
   * number, coach number, condition, manufacturer, status): applied when that
   * filter is given, the rows unchanged otherwise. An empty string adds no
   * condition; an enum value always does.
   */
  function Step(rs: seq<WheelRecord>, f: WheelSpecificationFilters, k: nat): seq<WheelRecord>
    requires 1 <= k <= 5
  {
    if k == 1 then (if Supplied(f.wheelNumber) then Where(rs, WheelNumberLike(f.wheelNumber.value)) else rs)
    else if k == 2 then (if Supplied(f.coachNumber) then Where(rs, CoachNumberLike(f.coachNumber.value)) else rs)
    else if k == 3 then (if f.condition.Some? then Where(rs, ConditionIs(f.condition.value)) else rs)
    else if k == 4 then (if Supplied(f.manufacturer) then Where(rs, ManufacturerLike(f.manufacturer.value)) else rs)
    else (if f.status.Some? then Where(rs, StatusIs(f.status.value)) else rs)
  }

  /** The listing query as it is built, one step per filter in the order above. */
  function Query(rs: seq<WheelRecord>, f: WheelSpecificationFilters): seq<WheelRecord> {
    var q1 := Step(rs, f, 1);
    var q2 := Step(q1, f, 2);
    var q3 := Step(q2, f, 3);
    var q4 := Step(q3, f, 4);
    Step(q4, f, 5)
  }

  /** The condition the `k`-th step imposes on a row; it holds trivially when that filter is not given. */
  predicate Passes(r: WheelRecord, f: WheelSpecificationFilters, k: nat) {
    if k == 1 then Supplied(f.wheelNumber) ==> ILike(r.spec.wheelNumber, f.wheelNumber.value)
    else if k == 2 then Supplied(f.coachNumber) ==> ILike(r.spec.coachNumber, f.coachNumber.value)
    else if k == 3 then f.condition.Some? ==> r.spec.condition == f.condition
    else if k == 4 then
      Supplied(f.manufacturer) ==> r.spec.manufacturer.Some? && ILike(r.spec.manufacturer.value, f.manufacturer.value)
    else f.status.Some? ==> r.spec.status == f.status
  }

  /** The row meets the conditions of the first `k` steps. */
  predicate PassesFirst(r: WheelRecord, f: WheelSpecificationFilters, k: nat) {
    k == 0 || (PassesFirst(r, f, k - 1) && Passes(r, f, k))
  }

  /** A row matches the filters when it meets every one that is given, all at once. */
  predicate MatchesFilters(r: WheelRecord, f: WheelSpecificationFilters) {
    && (Supplied(f.wheelNumber) ==> ILike(r.spec.wheelNumber, f.wheelNumber.value))
    && (Supplied(f.coachNumber) ==> ILike(r.spec.coachNumber, f.coachNumber.value))
    && (f.condition.Some? ==> r.spec.condition == f.condition)
    && (Supplied(f.manufacturer) ==> r.spec.manufacturer.Some? && ILike(r.spec.manufacturer.value, f.manufacturer.value))
    && (f.status.Some? ==> r.spec.status == f.status)
  }

  /** The rows matching the filters, in table order. */
  function Select(rs: seq<WheelRecord>, f: WheelSpecificationFilters): seq<WheelRecord> {
    Filter(rs, x => MatchesFilters(x, f))
  }

  lemma {:induction false} FilterAll(rs: seq<WheelRecord>, p: WheelRecord -> bool)
    requires forall x :: p(x)
    ensures Filter(rs, p) == rs
  {
    if rs != [] {
      FilterAll(rs[1..], p);
    }
  }

  /** Applying one WHERE condition to the rows passing `before` gives the rows passing `after`. */
  lemma {:induction false} WhereNarrows(rs: seq<WheelRecord>, before: WheelRecord -> bool, after: WheelRecord -> bool, c: Criterion)
    requires forall x :: after(x) == (before(x) && Satisfies(x, c))
    ensures Where(Filter(rs, before), c) == Filter(rs, after)
  {
    var sat := x => Satisfies(x, c);
    assert Where(Filter(rs, before), c) == Filter(Filter(rs, before), sat);
    FilterFilter(rs, before, sat);
    FilterSame(rs, x => before(x) && sat(x), after);
  }

  /** Each step narrows the rows passing the earlier steps to those passing this one too. */
  lemma StepNarrows(rs: seq<WheelRecord>, f: WheelSpecificationFilters, k: nat)
    requires 1 <= k <= 5
    ensures Step(Filter(rs, x => PassesFirst(x, f, k - 1)), f, k) == Filter(rs, x => PassesFirst(x, f, k))
  {
    var before := x => PassesFirst(x, f, k - 1);
    var after := x => PassesFirst(x, f, k);
    if k == 1 && Supplied(f.wheelNumber) {
      WhereNarrows(rs, before, after, WheelNumberLike(f.wheelNumber.value));
    } else if k == 2 && Supplied(f.coachNumber) {
      WhereNarrows(rs, before, after, CoachNumberLike(f.coachNumber.value));
    } else if k == 3 && f.condition.Some? {
      WhereNarrows(rs, before, after, ConditionIs(f.condition.value));
    } else if k == 4 && Supplied(f.manufacturer) {
      WhereNarrows(rs, before, after, ManufacturerLike(f.manufacturer.value));
    } else if k == 5 && f.status.Some? {
      WhereNarrows(rs, before, after, StatusIs(f.status.value));
    } else {
      FilterSame(rs, before, after);
    }
  }

  /** The conditions are AND-combined: the query built step by step selects exactly the matching rows. */
  lemma QueryIsSelect(rs: seq<WheelRecord>, f: WheelSpecificationFilters)
    ensures Query(rs, f) == Select(rs, f)
  {
    FilterAll(rs, x => PassesFirst(x, f, 0));
    StepNarrows(rs, f, 1);
    StepNarrows(rs, f, 2);
    StepNarrows(rs, f, 3);
    StepNarrows(rs, f, 4);
    StepNarrows(rs, f, 5);
    FilterSame(rs, x => PassesFirst(x, f, 5), x => MatchesFilters(x, f));
  }

  /** `query.count()`: the number of matching rows, counted one row at a time. */
  function CountMatching(rs: seq<WheelRecord>, f: WheelSpecificationFilters): (n: nat)
    ensures n <= |rs|
  {
    if rs == [] then 0
    else (if MatchesFilters(rs[0], f) then 1 else 0) + CountMatching(rs[1..], f)
  }

  lemma {:induction false} CountIsSelectLength(rs: seq<WheelRecord>, f: WheelSpecificationFilters)
    ensures CountMatching(rs, f) == |Select(rs, f)|
  {
    if rs != [] {
      CountIsSelectLength(rs[1..], f);
    }
  }

  /** A stored row is listed (on some page) exactly when it matches the filters. */
  lemma SelectMembership(rs: seq<WheelRecord>, f: WheelSpecificationFilters, r: WheelRecord)
    ensures r in Select(rs, f) <==> r in rs && MatchesFilters(r, f)
  {
  }

  /** Appending a row extends the selection by that row exactly when it matches. */
  lemma SelectAppend(rs: seq<WheelRecord>, r: WheelRecord, f: WheelSpecificationFilters)
    ensures Select(rs + [r], f) == Select(rs, f) + (if MatchesFilters(r, f) then [r] else [])
  {
    FilterAppend(rs, [r], x => MatchesFilters(x, f));
    assert [r][1..] == [];
  }

  /** With no filter given (or only empty strings), every row is selected, in table order. */
  lemma NoFiltersSelectAll(rs: seq<WheelRecord>, f: WheelSpecificationFilters)
    requires !Supplied(f.wheelNumber) && !Supplied(f.coachNumber) && !Supplied(f.manufacturer)
    requires f.condition.None? && f.status.None?
    ensures Select(rs, f) == rs
  {
    FilterAll(rs, x => MatchesFilters(x, f));
  }

  /** A row is found by its own wheel number. */
  lemma OwnWheelNumberMatches(r: WheelRecord, f: WheelSpecificationFilters)
    requires f == WheelSpecificationFilters(Some(r.spec.wheelNumber), None, None, None, None, f.limit, f.offset)
    ensures MatchesFilters(r, f)
  {
    ILikeItself(r.spec.wheelNumber);
  }

  /** A row with no manufacturer never matches a manufacturer filter. */
  lemma NoManufacturerNeverMatches(r: WheelRecord, f: WheelSpecificationFilters)
    requires Supplied(f.manufacturer) && r.spec.manufacturer.None?
    ensures !MatchesFilters(r, f)
  {
  }

  // ------------------------------------------------------------- pagination

  /** `OFFSET offset LIMIT limit`: the rows from position `offset` on, at most `limit` of them. */
  function Page(ms: seq<WheelRecord>, offset: nat, limit: nat): (r: seq<WheelRecord>)
    ensures |r| <= limit
    ensures offset >= |ms| ==> r == []
    ensures offset < |ms| ==> |r| == Min(limit, |ms| - offset)
    ensures forall i :: 0 <= i < |r| ==> offset + i < |ms| && r[i] == ms[offset + i]
  {
    if offset >= |ms| then [] else ms[offset..offset + Min(limit, |ms| - offset)]
  }

  /** Consecutive pages join up: the page at `o` of size `a` followed by the page at `o + a` of size `b`. */
  lemma PagesJoin(ms: seq<WheelRecord>, o: nat, a: nat, b: nat)
    ensures Page(ms, o, a) + Page(ms, o + a, b) == Page(ms, o, a + b)
  {
  }

  /** Every page from `offset` on, each of `limit` rows, until the rows run out. */
  function PagesFrom(ms: seq<WheelRecord>, offset: nat, limit: nat): seq<WheelRecord>
    requires limit >= 1
    decreases |ms| - offset
  {
    if offset >= |ms| then [] else Page(ms, offset, limit) + PagesFrom(ms, offset + limit, limit)
  }

  /** Paging through with any page size returns every row once, in order. */
  lemma {:induction false} PagesFromCoverAll(ms: seq<WheelRecord>, offset: nat, limit: nat)
    requires limit >= 1 && offset <= |ms|
    ensures PagesFrom(ms, offset, limit) == ms[offset..]
    decreases |ms| - offset
  {
    if offset < |ms| {
      if offset + limit <= |ms| {
        PagesFromCoverAll(ms, offset + limit, limit);
        assert ms[offset..] == ms[offset..offset + limit] + ms[offset + limit..];
      } else {
        assert PagesFrom(ms, offset + limit, limit) == [];
      }
    }
  }

  // ---------------------------------------------------------- response rows

  /** One entry of the listing's `data`: every column of the row, as the response sends it. */
  datatype WheelRow = WheelRow(
    id: nat,
    wheelNumber: string,
    axleNumber: string,
    coachNumber: string,
    position: Option<Position>,
    wheelDiameter: real,
    rimThickness: Option<real>,
    flangeHeight: Option<real>,
    flangeThickness: Option<real>,
    condition: Option<Condition>,
    wearPattern: Option<string>,
    cracksDetected: Option<bool>,
    manufacturer: Option<string>,
    manufactureDate: Option<Timestamp>,
    materialGrade: Option<string>,
    lastInspectionDate: Option<Timestamp>,
    nextInspectionDue: Option<Timestamp>,
    inspectorName: Option<string>,
    loadCapacity: Option<real>,
    speedRating: Option<string>,
    remarks: Option<string>,
    status: Option<Status>,
    createdAt: Timestamp,
    updatedAt: Timestamp)

  function RowOf(r: WheelRecord): WheelRow {
    var c := r.spec;
    WheelRow(
      r.id, c.wheelNumber, c.axleNumber, c.coachNumber, c.position, c.wheelDiameter,
      c.rimThickness, c.flangeHeight, c.flangeThickness, c.condition, c.wearPattern,
      c.cracksDetected, c.manufacturer, c.manufactureDate, c.materialGrade,
      c.lastInspectionDate, c.nextInspectionDue, c.inspectorName, c.loadCapacity,
      c.speedRating, c.remarks, c.status, r.createdAt, r.updatedAt)
  }

  /** The row a response entry was made from. */
  function RecordOf(w: WheelRow): WheelRecord {
    WheelRecord(w.id, w.createdAt, w.updatedAt, WheelSpecificationCreate(
      w.wheelNumber, w.axleNumber, w.coachNumber, w.position, w.wheelDiameter,
      w.rimThickness, w.flangeHeight, w.flangeThickness, w.condition, w.wearPattern,
      w.cracksDetected, w.manufacturer, w.manufactureDate, w.materialGrade,
      w.lastInspectionDate, w.nextInspectionDue, w.inspectorName, w.loadCapacity,
      w.speedRating, w.remarks, w.status))
  }

  /** A response entry loses no column of its row. */
  lemma RowRoundTrip(r: WheelRecord)
    ensures RecordOf(RowOf(r)) == r
  {
  }

  /** The response entries of a page: one per row, in order, each giving back its row. */
  function Rows(rs: seq<WheelRecord>): (out: seq<WheelRow>)
    ensures |out| == |rs|
    ensures forall i :: 0 <= i < |rs| ==> RecordOf(out[i]) == rs[i]
  {
    seq(|rs|, i requires 0 <= i < |rs| => RowOf(rs[i]))
  }

  /** The conversion loop of the listing: one response entry per row of the page, in order. */
  method ResponseRows(specs: seq<WheelRecord>) returns (data: seq<WheelRow>)
    ensures data == Rows(specs)
  {
    data := [];
    var i := 0;
    while i < |specs|
      invariant 0 <= i <= |specs|
      invariant data == Rows(specs[..i])
    {
      data := data + [RowOf(specs[i])];
      i := i + 1;
    }
    assert specs[..i] == specs;
  }

  // ---------------------------------------------------------------- listing

  /** The body of a successful listing; `retrieved` is the count in its message. */
  datatype WheelPage = WheelPage(retrieved: nat, data: seq<WheelRow>, total: nat, limit: int, offset: int)

  /** The listing the filters select from the wheel table. */
  function ListWheels(rs: seq<WheelRecord>, f: WheelSpecificationFilters): (p: WheelPage)
    requires ValidFilters(f)
  {
    var matching := Query(rs, f);
    var data := Rows(Page(matching, f.offset, f.limit));
    WheelPage(|data|, data, |matching|, f.limit, f.offset)
  }

  /**
   * What a listing promises: `total` counts every matching row, `data` holds
   * the matching rows from `offset` on, at most `limit` of them and none past
   * the end, the message counts `data`, and `limit` and `offset` are echoed.
   */
  lemma ListWheelsMeaning(rs: seq<WheelRecord>, f: WheelSpecificationFilters)
    requires ValidFilters(f)
    ensures var p := ListWheels(rs, f);
      && p.total == CountMatching(rs, f)
      && p.data == Rows(Page(Select(rs, f), f.offset, f.limit))
      && |p.data| <= f.limit
      && (f.offset >= p.total ==> p.data == [])
      && p.retrieved == |p.data|
      && p.limit == f.limit && p.offset == f.offset
  {
    QueryIsSelect(rs, f);
    CountIsSelectLength(rs, f);
  }

  /** Every listed entry is a stored row that matches every given filter. */
  lemma ListedRowsMatch(rs: seq<WheelRecord>, f: WheelSpecificationFilters, w: WheelRow)
    requires ValidFilters(f)
    requires w in ListWheels(rs, f).data
    ensures RecordOf(w) in rs && MatchesFilters(RecordOf(w), f)
  {
    QueryIsSelect(rs, f);
    var page := Page(Select(rs, f), f.offset, f.limit);
    var i :| 0 <= i < |page| && w == Rows(page)[i];
    RowRoundTrip(page[i]);
  }

  /** `total` depends on the filters only, never on `limit` or `offset`. */
  lemma TotalIgnoresPaging(rs: seq<WheelRecord>, f: WheelSpecificationFilters, g: WheelSpecificationFilters)
    requires ValidFilters(f) && ValidFilters(g)
    requires f.(limit := g.limit, offset := g.offset) == g
    ensures ListWheels(rs, f).total == ListWheels(rs, g).total
  {
    QueryIsSelect(rs, f);
    QueryIsSelect(rs, g);
    FilterSame(rs, x => MatchesFilters(x, f), x => MatchesFilters(x, g));
  }

  /** When every match fits on one page, the first page lists them all. */
  lemma SmallResultFitsOnePage(rs: seq<WheelRecord>, f: WheelSpecificationFilters)
    requires ValidFilters(f) && f.offset == 0
    requires CountMatching(rs, f) <= f.limit
    ensures ListWheels(rs, f).data == Rows(Select(rs, f))
  {
    ListWheelsMeaning(rs, f);
    CountIsSelectLength(rs, f);
    assert Page(Select(rs, f), 0, f.limit) == Select(rs, f);
  }
}
