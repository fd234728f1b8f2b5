/** The `sort` and `filter` query parameters: parsing, printing and when the two are inverse. */
module QueryParams {
  import opened Wrappers
  import opened Strings

  datatype ValidationError = InvalidFormat | InvalidField | InvalidOperator | InvalidValue | InvalidDirection

  datatype SortParam = SortParam(field: string, direction: string)
  datatype FilterParam = FilterParam(field: string, operator: string, value: string)

  predicate IsDirection(s: string) {
    s == "asc" || s == "desc"
  }

  predicate IsOperator(s: string) {
    s == "eq" || s == "neq" || s == "gt" || s == "gte" || s == "lt" || s == "lte" || s == "in" || s == "contains"
  }

  /** Construction, which validates the fields. */
  function MakeSort(field: string, direction: string): Result<SortParam, ValidationError> {
    if field == "" then Err(InvalidField)
    else if !IsDirection(direction) then Err(InvalidDirection)
    else Ok(SortParam(field, direction))
  }

  function MakeFilter(field: string, operator: string, value: string): Result<FilterParam, ValidationError> {
    if field == "" then Err(InvalidField)
    else if !IsOperator(operator) then Err(InvalidOperator)
    else if value == "" then Err(InvalidValue)
    else Ok(FilterParam(field, operator, value))
  }

  /** `s.split(":", max)`. */
  function Split(s: string, max: nat): (parts: seq<string>)
    ensures 1 <= |parts| <= max + 1
    ensures |parts| == 1 ==> parts == [s]
    decreases max
  {
    var i := IndexOf(s, ':');
    if max == 0 || i == |s| then [s] else [s[..i]] + Split(s[i + 1..], max - 1)
  }

  function SortFromString(s: string): Result<SortParam, ValidationError> {
    if ':' !in s then MakeSort(s, "asc")
    else
      var parts := Split(s, 1);
      if |parts| != 2 then Err(InvalidFormat)
      else MakeSort(Strip(parts[0]), Strip(parts[1]))
  }

  function SortToString(p: SortParam): string {
    p.field + ":" + p.direction
  }

  function FilterFromString(s: string): Result<FilterParam, ValidationError> {
    var parts := Split(s, 2);
    if |parts| == 2 then MakeFilter(Strip(parts[0]), "eq", Strip(parts[1]))
    else if |parts| == 3 then MakeFilter(Strip(parts[0]), Strip(parts[1]), Strip(parts[2]))
    else Err(InvalidFormat)
  }

  function FilterToString(p: FilterParam): string {
    p.field + ":" + p.operator + ":" + p.value
  }

  predicate SortValid(p: SortParam) {
    MakeSort(p.field, p.direction) == Ok(p)
  }

  predicate FilterValid(p: FilterParam) {
    MakeFilter(p.field, p.operator, p.value) == Ok(p)
  }

  // ----- Splitting

  /** Splitting at a colon that ends a colon-free prefix. */
  lemma SplitAfter(head: string, tail: string, max: nat)
    requires ':' !in head && max > 0
    ensures Split(head + ":" + tail, max) == [head] + Split(tail, max - 1)
  {
    var s := head + ":" + tail;
    assert forall k | 0 <= k < |head| :: s[k] == head[k] && head[k] in head;
    IndexOfFirst(s, ':', |head|);
    assert s[..|head|] == head && s[|head| + 1..] == tail;
  }

  /** The first part of a split is a prefix without colons. */
  lemma SplitHead(s: string, max: nat)
    requires max > 0
    ensures ':' !in Split(s, max)[0] && Split(s, max)[0] <= s
  {
  }

  lemma OperatorsArePlain(s: string)
    requires IsOperator(s) || IsDirection(s)
    ensures ':' !in s && Trimmed(s)
  {
  }

  // ----- Sort parameters

  lemma PlainSortSplits(p: SortParam)
    requires SortValid(p) && ':' !in p.field
    ensures Split(SortToString(p), 1) == [p.field, p.direction]
  {
    SplitAfter(p.field, p.direction, 1);
  }

  lemma ParsedSortIsPlain(s: string)
    requires ':' in s && SortFromString(s).Ok?
    ensures ':' !in SortFromString(s).value.field && Trimmed(SortFromString(s).value.field)
  {
    SplitHead(s, 1);
    assert forall c | c in Strip(Split(s, 1)[0]) :: c in Split(s, 1)[0];
  }

  /** A valid sort parameter survives printing and parsing exactly when its field is trimmed and has no colon. */
  lemma SortRoundTrip(p: SortParam)
    requires SortValid(p)
    ensures SortFromString(SortToString(p)) == Ok(p) <==> ':' !in p.field && Trimmed(p.field)
  {
    var s := SortToString(p);
    assert s[|p.field|] == ':';
    OperatorsArePlain(p.direction);
    if ':' !in p.field {
      PlainSortSplits(p);
    }
    if SortFromString(s) == Ok(p) {
      ParsedSortIsPlain(s);
    }
  }

  /** Only one valid parameter with a plain field prints as a given string. */
  lemma PrintedSortIsUnique(p: SortParam, q: SortParam, s: string)
    requires SortValid(p) && SortValid(q) && SortToString(p) == s == SortToString(q)
    ensures p == q
  {
    var n, m := |p.direction|, |q.direction|;
    assert s[|s| - 3] == p.direction[n - 3] && s[|s| - 3] == q.direction[m - 3];
    assert p.direction == q.direction;
    assert p.field == s[..|s| - 1 - n] && q.field == s[..|s| - 1 - m];
  }

  /** A string that parses is normalised by one parse and print exactly when it has a colon or is trimmed. */
  lemma SortNormalForm(s: string)
    requires SortFromString(s).Ok?
    ensures var once := SortToString(SortFromString(s).value);
            (SortFromString(once).Ok? && SortToString(SortFromString(once).value) == once) <==> ':' in s || Trimmed(s)
  {
    var p := SortFromString(s).value;
    var once := SortToString(p);
    SortRoundTrip(p);
    if ':' in s {
      SplitHead(s, 1);
      assert forall c | c in p.field :: c in Split(s, 1)[0];
    }
    if SortFromString(once).Ok? && SortToString(SortFromString(once).value) == once {
      PrintedSortIsUnique(SortFromString(once).value, p, once);
    }
  }

  // ----- Filter parameters

  lemma PlainFiltersSplit(p: FilterParam)
    requires FilterValid(p) && ':' !in p.field
    ensures Split(FilterToString(p), 2) == [p.field, p.operator, p.value]
  {
    OperatorsArePlain(p.operator);
    var tail := p.operator + ":" + p.value;
    assert FilterToString(p) == p.field + ":" + tail;
    SplitAfter(p.field, tail, 2);
    SplitAfter(p.operator, p.value, 1);
  }

  lemma PlainFiltersPrintBack(p: FilterParam)
    requires FilterValid(p) && ':' !in p.field && Trimmed(p.field) && Trimmed(p.value)
    ensures FilterFromString(FilterToString(p)) == Ok(p)
  {
    OperatorsArePlain(p.operator);
    PlainFiltersSplit(p);
  }

  lemma StrippedHeadIsPlain(s: string)
    ensures |Split(s, 2)| > 1 ==> ':' !in Strip(Split(s, 2)[0])
  {
    SplitHead(s, 2);
  }

  lemma ParsedFiltersArePlain(s: string)
    requires FilterFromString(s).Ok?
    ensures var p := FilterFromString(s).value;
            FilterValid(p) && ':' !in p.field && Trimmed(p.field) && Trimmed(p.value)
  {
    var parts := Split(s, 2);
    StrippedHeadIsPlain(s);
    assert FilterFromString(s) ==
             if |parts| == 2 then MakeFilter(Strip(parts[0]), "eq", Strip(parts[1]))
             else MakeFilter(Strip(parts[0]), Strip(parts[1]), Strip(parts[2]));
  }

  /**
   * A valid filter parameter survives printing and parsing exactly when its field is trimmed and has no colon
   * and its value is trimmed; the value may have colons.
   */
  lemma FilterRoundTrip(p: FilterParam)
    requires FilterValid(p)
    ensures FilterFromString(FilterToString(p)) == Ok(p) <==> ':' !in p.field && Trimmed(p.field) && Trimmed(p.value)
  {
    if FilterFromString(FilterToString(p)) == Ok(p) {
      ParsedFiltersArePlain(FilterToString(p));
    }
    if ':' !in p.field && Trimmed(p.field) && Trimmed(p.value) {
      PlainFiltersPrintBack(p);
    }
  }

  /** Parsing and printing a filter string that parses gives a string that parses back to the same parameter. */
  lemma FilterNormalForm(s: string)
    requires FilterFromString(s).Ok?
    ensures var p := FilterFromString(s).value; FilterFromString(FilterToString(p)) == Ok(p)
  {
    ParsedFiltersArePlain(s);
    PlainFiltersPrintBack(FilterFromString(s).value);
  }
}
