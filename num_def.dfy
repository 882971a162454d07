// `parseNumDef` and the five field parsers of parse_cron.go. A field token
// is tried against four shapes in a fixed order (step `*/N`, range `A-B`,
// list `N1,N2,...` and wildcard `*`) and otherwise read as a single integer.
// The Go regular expressions are written out as character-class predicates.
module NumDef {
  import opened Outcomes
  import opened Text
  import opened Generators

  /** `^\*\/\d+$` */
  predicate IsStepToken(s: string) {
    |s| >= 3 && s[..2] == "*/" && IsDigitRun(s[2..])
  }

  /** `^\d+-\d+$` */
  predicate IsRangeToken(s: string) {
    var parts := Split(s, '-');
    |parts| == 2 && IsDigitRun(parts[0]) && IsDigitRun(parts[1])
  }

  /** `^\d+(,\d+)+$` */
  predicate IsListToken(s: string) {
    var parts := Split(s, ',');
    |parts| >= 2 && AllDigitRuns(parts)
  }

  /** A token that matches no shape and is not an integer. */
  predicate IsUnrecognised(s: string) {
    !IsStepToken(s) && !IsRangeToken(s) && !IsListToken(s) && s != "*" && Atoi(s).None?
  }

  /** A non-digit after the first character makes `Atoi` fail. */
  lemma AtoiRejects(s: string, i: nat)
    requires 1 <= i < |s| && !IsDigit(s[i])
    ensures Atoi(s).None?
  {
    assert s[1..][i - 1] == s[i];
  }

  /** The shapes exclude each other and an integer, so the order in which
      they are tried matters only for the ill-formed tokens. */
  lemma ShapesExclusive(s: string)
    ensures IsStepToken(s) ==> !IsRangeToken(s) && !IsListToken(s) && s != "*" && Atoi(s).None?
    ensures IsRangeToken(s) ==> !IsListToken(s) && s != "*" && Atoi(s).None?
    ensures IsListToken(s) ==> s != "*" && Atoi(s).None?
    ensures s == "*" ==> Atoi(s).None?
  {
    if IsRangeToken(s) {
      SplitDigitRuns(s, '-');
      var i :| 0 <= i < |s| && s[i] == '-';
      AtoiRejects(s, i);
      assert !DigitsOr(s, ',') by {
        assert !IsDigit(s[i]) && s[i] != ',';
      }
    }
    if IsListToken(s) {
      SplitDigitRuns(s, ',');
      var i :| 0 <= i < |s| && s[i] == ',';
      AtoiRejects(s, i);
    }
    if IsStepToken(s) {
      assert s[0] == '*';
      assert !DigitsOr(s, '-') && !DigitsOr(s, ',') by {
        assert !IsDigit(s[0]);
      }
      if IsRangeToken(s) {
        SplitDigitRuns(s, '-');
      }
      if IsListToken(s) {
        SplitDigitRuns(s, ',');
      }
    }
  }

  /** `parseNumDef`: the list of values a field token denotes in the domain
      `[start, limit]`. Every value of a non-singleton result lies in the
      domain; a singleton is returned as it is, without a domain check; the
      only format error is for a token of no recognised shape. */
  function ParseNumDef(s: string, start: int, limit: int): (r: Result<seq<int>>)
    ensures r.Ok? && Atoi(s).None? ==> forall x :: x in r.value ==> start <= x <= limit
    ensures Atoi(s).Some? ==> r == Ok([Atoi(s).value])
    ensures r.Err? && r.error.IsFormatError() <==> IsUnrecognised(s)
    ensures IsUnrecognised(s) ==> r == Err(InvalidDefinition(s))
  {
    ShapesExclusive(s);
    if IsStepToken(s) then
      StarListSpec(s, start, limit);
      StarList(s, start, limit)
    else if IsRangeToken(s) then
      SplitDigitRuns(s, '-');
      DashListSpec(s, start, limit);
      DashList(s, start, limit)
    else if IsListToken(s) then
      CheckElementsSpec(Split(s, ','), start, limit);
      CommaList(s, start, limit)
    else if s == "*" then
      IntervalMembers(start, limit);
      Ok(Interval(start, limit))
    else
      match Atoi(s)
      case None => Err(InvalidDefinition(s))
      case Some(num) => Ok([num])
  }

  // Step `*/N`: with N > 0, exactly the values of the domain whose remainder
  // by N is zero, strictly ascending; with N = 0, an error and no values.
  lemma StepField(s: string, start: int, limit: int)
    requires IsStepToken(s)
    ensures var n, r := DigitsValue(s[2..]), ParseNumDef(s, start, limit);
      && (n == 0 ==> r == Err(IntervalZero))
      && (n > 0 ==>
            && r.Ok?
            && StrictlyAscending(r.value)
            && forall x :: x in r.value <==> start <= x <= limit && GoRem(x, n) == 0)
  {
    StarListSpec(s, start, limit);
  }

  /** On a non-negative domain the Go remainder is the ordinary one, so a
      step field holds the multiples of N, and a domain starting at 1 never
      holds its start unless N divides it. */
  lemma StepFieldMultiples(s: string, start: nat, limit: int)
    requires IsStepToken(s) && DigitsValue(s[2..]) > 0
    ensures var n, r := DigitsValue(s[2..]), ParseNumDef(s, start, limit);
      r.Ok? && forall x :: x in r.value <==> start <= x <= limit && x % n == 0
  {
    StepField(s, start, limit);
  }

  /** Range `A-B`: only the first and the last character of the token are
      read. The checks come in the order first < start, last > limit,
      first > last; when all pass the result is the contiguous run between
      the two digits. */
  lemma RangeField(s: string, start: int, limit: int)
    requires IsRangeToken(s)
    ensures |s| > 0 && IsDigit(s[0]) && IsDigit(s[|s| - 1])
    ensures var f, l, r := DigitValue(s[0]) as int, DigitValue(s[|s| - 1]) as int, ParseNumDef(s, start, limit);
      && (f < start ==> r == Err(FirstBelowStart(f, start)))
      && (start <= f && limit < l ==> r == Err(LastAboveLimit(l, limit)))
      && (start <= f && l <= limit && l < f ==> r == Err(FirstAboveLast(f, l)))
      && (start <= f <= l <= limit ==>
            && r.Ok?
            && |r.value| == l - f + 1
            && forall k :: 0 <= k < |r.value| ==> r.value[k] == f + k)
  {
    ShapesExclusive(s);
    SplitDigitRuns(s, '-');
    DashListSpec(s, start, limit);
  }

  /** Every piece of a list token reads as a value of `[start, limit]`. */
  predicate ElementsInDomain(parts: seq<string>, start: int, limit: int)
    requires AllDigitRuns(parts)
  {
    forall k :: 0 <= k < |parts| ==> start <= DigitsValue(parts[k]) <= limit
  }

  /** Digit-run elements: the checks succeed exactly when every value is in
      the domain; otherwise the first value outside it decides the error. */
  lemma {:induction false} DigitElements(parts: seq<string>, start: int, limit: int)
    requires AllDigitRuns(parts)
    ensures CheckElements(parts, start, limit).Ok? <==> ElementsInDomain(parts, start, limit)
    ensures var r := CheckElements(parts, start, limit);
      r.Ok? ==>
        && |r.value| == |parts|
        && forall k :: 0 <= k < |parts| ==> r.value[k] == DigitsValue(parts[k])
    ensures var r := CheckElements(parts, start, limit);
      r.Err? ==>
        exists j ::
          && 0 <= j < |parts|
          && ElementsInDomain(parts[..j], start, limit)
          && var v := DigitsValue(parts[j]);
             && !(start <= v <= limit)
             && r.error == if v < start then ElementBelowStart(v, start) else ElementAboveLimit(v, limit)
  {
    if |parts| > 0 {
      var n := |parts| - 1;
      var init := parts[..n];
      assert forall k :: 0 <= k < n ==> init[k] == parts[k];
      DigitElements(init, start, limit);
      ElementReads(parts[n], start, limit);
      var v := DigitsValue(parts[n]);
      var r := CheckElements(parts, start, limit);
      if CheckElements(init, start, limit).Err? {
        var j :| 0 <= j < n
          && ElementsInDomain(init[..j], start, limit)
          && var v := DigitsValue(init[j]);
             && !(start <= v <= limit)
             && r.error == if v < start then ElementBelowStart(v, start) else ElementAboveLimit(v, limit);
        assert init[..j] == parts[..j];
      } else if start <= v <= limit {
        assert r.Ok?;
      } else {
        assert parts[..n] == init;
      }
    }
  }

  /** List `N1,N2,...`: succeeds exactly when every element lies in the
      domain, and then returns the elements' values in input order and
      number, neither sorted nor deduplicated. Otherwise the first element
      outside the domain decides the error. */
  lemma ListField(s: string, start: int, limit: int)
    requires IsListToken(s)
    ensures ParseNumDef(s, start, limit).Ok? <==> ElementsInDomain(Split(s, ','), start, limit)
    ensures var parts, r := Split(s, ','), ParseNumDef(s, start, limit);
      r.Ok? ==>
        && |r.value| == |parts|
        && forall k :: 0 <= k < |parts| ==> r.value[k] == DigitsValue(parts[k])
    ensures var parts, r := Split(s, ','), ParseNumDef(s, start, limit);
      r.Err? ==>
        exists j ::
          && 0 <= j < |parts|
          && ElementsInDomain(parts[..j], start, limit)
          && var v := DigitsValue(parts[j]);
             && !(start <= v <= limit)
             && r.error == if v < start then ElementBelowStart(v, start) else ElementAboveLimit(v, limit)
  {
    ListDispatch(s, start, limit);
    DigitElements(Split(s, ','), start, limit);
  }

  /** A list token is handed to the list generator. */
  lemma ListDispatch(s: string, start: int, limit: int)
    requires IsListToken(s)
    ensures ParseNumDef(s, start, limit) == CommaList(s, start, limit)
  {
    ShapesExclusive(s);
  }

  /** A digit run is checked against the domain by its decimal value. */
  lemma ElementReads(e: string, start: int, limit: int)
    requires IsDigitRun(e)
    ensures var v := DigitsValue(e);
      ElementCheck(e, start, limit) ==
        if v < start then Err(ElementBelowStart(v, start))
        else if v > limit then Err(ElementAboveLimit(v, limit))
        else Ok(v)
  {
    assert IsDigit(e[0]);
  }

  /** Wildcard `*`: the whole domain, ascending, and never an error. */
  lemma WildcardField(start: int, limit: int)
    ensures var r := ParseNumDef("*", start, limit);
      && r.Ok?
      && |r.value| == (if limit < start then 0 else limit - start + 1)
      && forall k :: 0 <= k < |r.value| ==> r.value[k] == start + k
  {
    ShapesExclusive("*");
    SplitNoSeparator("*", '-');
    SplitNoSeparator("*", ',');
    IntervalContents(start, limit);
  }

  // ---------------------------------------------------------------------
  // Field parsers: each binds `parseNumDef` to its fixed domain and passes
  // its list or its error through unchanged.

  const MinuteStart := 0
  const MinuteLimit := 59
  const HourStart := 0
  const HourLimit := 23
  const DayOfMonthStart := 1
  const DayOfMonthLimit := 31
  const MonthStart := 1
  const MonthLimit := 12
  const DayOfWeekStart := 1
  const DayOfWeekLimit := 7

  /** `parseMinute`: minutes 0-59. */
  function ParseMinute(m: string): (r: Result<seq<int>>)
    ensures r.Ok? && Atoi(m).None? ==> forall x :: x in r.value ==> 0 <= x <= 59
    ensures Atoi(m).Some? ==> r == Ok([Atoi(m).value])
    ensures m == "*" ==> r.Ok? && |r.value| == 60
  {
    WildcardField(MinuteStart, MinuteLimit);
    ParseNumDef(m, MinuteStart, MinuteLimit)
  }

  /** `parseHours`: hours 0-23. */
  function ParseHours(h: string): (r: Result<seq<int>>)
    ensures r.Ok? && Atoi(h).None? ==> forall x :: x in r.value ==> 0 <= x <= 23
    ensures Atoi(h).Some? ==> r == Ok([Atoi(h).value])
    ensures h == "*" ==> r.Ok? && |r.value| == 24
  {
    WildcardField(HourStart, HourLimit);
    ParseNumDef(h, HourStart, HourLimit)
  }

  /** `parseDayOfMonth`: days of the month 1-31. */
  function ParseDayOfMonth(dom: string): (r: Result<seq<int>>)
    ensures r.Ok? && Atoi(dom).None? ==> forall x :: x in r.value ==> 1 <= x <= 31
    ensures Atoi(dom).Some? ==> r == Ok([Atoi(dom).value])
    ensures dom == "*" ==> r.Ok? && |r.value| == 31
  {
    WildcardField(DayOfMonthStart, DayOfMonthLimit);
    ParseNumDef(dom, DayOfMonthStart, DayOfMonthLimit)
  }

  /** `parseMonth`: months 1-12. */
  function ParseMonth(m: string): (r: Result<seq<int>>)
    ensures r.Ok? && Atoi(m).None? ==> forall x :: x in r.value ==> 1 <= x <= 12
    ensures Atoi(m).Some? ==> r == Ok([Atoi(m).value])
    ensures m == "*" ==> r.Ok? && |r.value| == 12
  {
    WildcardField(MonthStart, MonthLimit);
    ParseNumDef(m, MonthStart, MonthLimit)
  }

  /** `parseDayOfWeek`: days of the week 1-7. */
  function ParseDayOfWeek(dow: string): (r: Result<seq<int>>)
    ensures r.Ok? && Atoi(dow).None? ==> forall x :: x in r.value ==> 1 <= x <= 7
    ensures Atoi(dow).Some? ==> r == Ok([Atoi(dow).value])
    ensures dow == "*" ==> r.Ok? && |r.value| == 7
  {
    WildcardField(DayOfWeekStart, DayOfWeekLimit);
    ParseNumDef(dow, DayOfWeekStart, DayOfWeekLimit)
  }
}
