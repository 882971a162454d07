/** The four list generators of parse_cron.go (`genStarList`, `genDashList`,
    `genCommaList`, `genFullList`). Each is given twice: a function that
    says what the generator returns, used by the dispatcher, and a method
    that builds the list by appending in a loop as the Go code does,
    proved to return exactly that. */
module Generators {
  import opened Outcomes
  import opened Text

  /** Go's `%`: truncated division, so the remainder takes the sign of `a`
      and is smaller than `b` in magnitude. On a non-negative dividend and a
      positive divisor, the only ones the step generator can meet, it is
      Dafny's `%`. */
  function GoRem(a: int, b: int): (r: int)
    requires b != 0
    ensures (a >= 0 ==> r >= 0) && (a < 0 ==> r <= 0)
    ensures Abs(r) < Abs(b)
    ensures a >= 0 && b > 0 ==> r == a % b
  {
    var m := Abs(a) % Abs(b);
    assert 0 <= m < Abs(b);
    if a < 0 then -m else m
  }

  function Abs(x: int): nat {
    if x < 0 then -x else x
  }

  predicate StrictlyAscending(s: seq<int>) {
    forall i, j :: 0 <= i < j < |s| ==> s[i] < s[j]
  }

  // ---------------------------------------------------------------------
  // Contiguous runs (genFullList, and the loop of genDashList)

  /** `lo, lo+1, ..., hi`, empty when `hi < lo`. */
  function Interval(lo: int, hi: int): seq<int> {
    if hi < lo then [] else seq(hi - lo + 1, k => lo + k)
  }

  /** Extending an interval at its top end. */
  lemma IntervalSnoc(lo: int, hi: int)
    requires lo <= hi + 1
    ensures Interval(lo, hi + 1) == Interval(lo, hi) + [hi + 1]
  {
    assert Interval(lo, hi + 1)[..hi + 1 - lo] == Interval(lo, hi);
  }

  /** An interval holds every integer from `lo` to `hi`, in order, once. */
  lemma IntervalContents(lo: int, hi: int)
    ensures |Interval(lo, hi)| == if hi < lo then 0 else hi - lo + 1
    ensures forall k :: 0 <= k < |Interval(lo, hi)| ==> Interval(lo, hi)[k] == lo + k
  {
  }

  /** Consequences of `IntervalContents` in the vocabulary of the other generators. */
  lemma IntervalMembers(lo: int, hi: int)
    ensures forall x :: x in Interval(lo, hi) <==> lo <= x <= hi
    ensures StrictlyAscending(Interval(lo, hi))
  {
    IntervalContents(lo, hi);
    var r := Interval(lo, hi);
    forall x | lo <= x <= hi ensures x in r {
      assert r[x - lo] == x;
    }
  }

  /** `genFullList`: the whole domain `[start..limit]`, in order. */
  method GenFullList(s: string, start: int, limit: int) returns (numList: seq<int>)
    ensures numList == Interval(start, limit)
    ensures |numList| == if limit < start then 0 else limit - start + 1
    ensures forall k :: 0 <= k < |numList| ==> numList[k] == start + k
  {
    numList := [];
    var i := start;
    while i <= limit
      invariant start <= i && (i <= limit + 1 || i == start)
      invariant numList == Interval(start, i - 1)
    {
      IntervalSnoc(start, i - 1);
      numList := numList + [i];
      i := i + 1;
    }
    IntervalContents(start, limit);
  }

  // ---------------------------------------------------------------------
  // Step `*/N` (genStarList)

  /** The elements of `xs` whose Go remainder by `n` is zero, in order. */
  function MultiplesIn(xs: seq<int>, n: int): seq<int>
    requires n != 0
  {
    if |xs| == 0 then []
    else
      var x := xs[|xs| - 1];
      MultiplesIn(xs[..|xs| - 1], n) + (if GoRem(x, n) == 0 then [x] else [])
  }

  /** The integers of `[lo..hi]` whose Go remainder by `n` is zero, in order. */
  function Multiples(lo: int, hi: int, n: int): seq<int>
    requires n != 0
  {
    MultiplesIn(Interval(lo, hi), n)
  }

  /** `MultiplesIn` keeps exactly the multiples of `n`, and keeps an ascending
      sequence ascending. */
  lemma {:induction false} MultiplesInMembers(xs: seq<int>, n: int)
    requires n != 0
    ensures forall x :: x in MultiplesIn(xs, n) <==> x in xs && GoRem(x, n) == 0
    ensures StrictlyAscending(xs) ==> StrictlyAscending(MultiplesIn(xs, n))
  {
    if |xs| > 0 {
      var init, last := xs[..|xs| - 1], xs[|xs| - 1];
      MultiplesInMembers(init, n);
      assert xs == init + [last];
      if StrictlyAscending(xs) {
        var m := MultiplesIn(init, n);
        forall i | 0 <= i < |m| ensures m[i] < last {
          assert m[i] in m;
          var j :| 0 <= j < |init| && init[j] == m[i];
        }
      }
    }
  }

  /** `Multiples` holds exactly the multiples of `n` in `[lo..hi]`, strictly ascending. */
  lemma MultiplesMembers(lo: int, hi: int, n: int)
    requires n != 0
    ensures forall x :: x in Multiples(lo, hi, n) <==> lo <= x <= hi && GoRem(x, n) == 0
    ensures StrictlyAscending(Multiples(lo, hi, n))
  {
    IntervalMembers(lo, hi);
    MultiplesInMembers(Interval(lo, hi), n);
  }

  /** What `genStarList` returns for a step token `s`. */
  function StarList(s: string, start: int, limit: int): Result<seq<int>> {
    var interval := TrimLeft(s, {'*', '/'});
    match Atoi(interval)
    case None => Err(IntervalNotNumber(interval))
    case Some(n) => if n == 0 then Err(IntervalZero) else Ok(Multiples(start, limit, n))
  }

  /** For a step token with a positive interval the result is the set of
      multiples of the interval in the domain, strictly ascending; a zero
      interval is an error. */
  lemma StarListSpec(s: string, start: int, limit: int)
    requires |s| >= 3 && s[..2] == "*/" && IsDigitRun(s[2..])
    ensures var n := DigitsValue(s[2..]);
      && (n == 0 ==> StarList(s, start, limit) == Err(IntervalZero))
      && (n > 0 ==>
            && StarList(s, start, limit).Ok?
            && StrictlyAscending(StarList(s, start, limit).value)
            && forall x :: x in StarList(s, start, limit).value <==>
                 start <= x <= limit && GoRem(x, n) == 0)
  {
    assert s[0] == '*' && s[1] == '/';
    var t := TrimLeft(s, {'*', '/'});
    assert t == s[2..] by {
      assert |t| <= |s| - 2 ==> s[|s| - |t| - 1] in {'*', '/'};
      assert IsDigit(s[2]);
    }
    var n := DigitsValue(s[2..]);
    if n > 0 {
      MultiplesMembers(start, limit, n);
    }
  }

  /** `genStarList`. */
  method GenStarList(s: string, start: int, limit: int) returns (r: Result<seq<int>>)
    ensures r == StarList(s, start, limit)
  {
    var interval := TrimLeft(s, {'*', '/'});
    var parsed := Atoi(interval);
    if parsed.None? {
      return Err(IntervalNotNumber(interval));
    }
    var intervalNum := parsed.value;
    if intervalNum == 0 {
      return Err(IntervalZero);
    }
    var numList := [];
    var i := start;
    while i <= limit
      invariant start <= i && (i <= limit + 1 || i == start)
      invariant numList == Multiples(start, i - 1, intervalNum)
    {
      IntervalSnoc(start, i - 1);
      assert Interval(start, i)[..|Interval(start, i)| - 1] == Interval(start, i - 1);
      if GoRem(i, intervalNum) == 0 {
        numList := numList + [i];
      }
      i := i + 1;
    }
    return Ok(numList);
  }

  // ---------------------------------------------------------------------
  // Range `A-B` (genDashList)

  /** `getFirst`: the first character, as a one-character string. */
  function GetFirst(s: string): (f: string)
    requires |s| > 0
    ensures |f| == 1 && f[0] == s[0]
  {
    s[..1]
  }

  /** `getLast`: the last character, as a one-character string. */
  function GetLast(s: string): (l: string)
    requires |s| > 0
    ensures |l| == 1 && l[0] == s[|s| - 1]
  {
    s[|s| - 1..]
  }

  /** What `genDashList` returns: the bounds are the single first and last
      characters, checked in the order first < start, last > limit, first > last. */
  function DashList(s: string, start: int, limit: int): Result<seq<int>>
    requires |s| > 0
  {
    var first := GetFirst(s);
    match Atoi(first)
    case None => Err(FirstNotNumber(first))
    case Some(firstNum) =>
      var last := GetLast(s);
      match Atoi(last)
      case None => Err(LastNotNumber(last))
      case Some(lastNum) =>
        if firstNum < start then Err(FirstBelowStart(firstNum, start))
        else if lastNum > limit then Err(LastAboveLimit(lastNum, limit))
        else if firstNum > lastNum then Err(FirstAboveLast(firstNum, lastNum))
        else Ok(Interval(firstNum, lastNum))
  }

  /** A token that starts and ends with a digit: the range is decided by those
      two digits alone; errors come in the order the checks are made, and on
      success the result is the contiguous run between them. */
  lemma DashListSpec(s: string, start: int, limit: int)
    requires |s| > 0 && IsDigit(s[0]) && IsDigit(s[|s| - 1])
    ensures var f, l := DigitValue(s[0]) as int, DigitValue(s[|s| - 1]) as int;
      && (f < start ==> DashList(s, start, limit) == Err(FirstBelowStart(f, start)))
      && (start <= f && limit < l ==> DashList(s, start, limit) == Err(LastAboveLimit(l, limit)))
      && (start <= f && l <= limit && l < f ==> DashList(s, start, limit) == Err(FirstAboveLast(f, l)))
      && (start <= f <= l <= limit ==>
            DashList(s, start, limit).Ok?
            && |DashList(s, start, limit).value| == l - f + 1
            && forall k :: 0 <= k < l - f + 1 ==> DashList(s, start, limit).value[k] == f + k)
  {
    var first, last := GetFirst(s), GetLast(s);
    assert DigitsValue(first) == DigitValue(s[0]) by {
      assert first[..0] == [];
    }
    assert DigitsValue(last) == DigitValue(s[|s| - 1]) by {
      assert last[..0] == [];
    }
    IntervalContents(DigitValue(s[0]), DigitValue(s[|s| - 1]));
  }

  /** `genDashList`. */
  method GenDashList(s: string, start: int, limit: int) returns (r: Result<seq<int>>)
    requires |s| > 0
    ensures r == DashList(s, start, limit)
  {
    var first := GetFirst(s);
    var firstParsed := Atoi(first);
    if firstParsed.None? {
      return Err(FirstNotNumber(first));
    }
    var last := GetLast(s);
    var lastParsed := Atoi(last);
    if lastParsed.None? {
      return Err(LastNotNumber(last));
    }
    var firstNum, lastNum := firstParsed.value, lastParsed.value;
    if firstNum < start {
      return Err(FirstBelowStart(firstNum, start));
    }
    if lastNum > limit {
      return Err(LastAboveLimit(lastNum, limit));
    }
    if firstNum > lastNum {
      return Err(FirstAboveLast(firstNum, lastNum));
    }
    var numList := [];
    var i := firstNum;
    while i <= lastNum
      invariant firstNum <= i <= lastNum + 1
      invariant numList == Interval(firstNum, i - 1)
    {
      IntervalSnoc(firstNum, i - 1);
      numList := numList + [i];
      i := i + 1;
    }
    return Ok(numList);
  }

  // ---------------------------------------------------------------------
  // List `N1,N2,...` (genCommaList)

  /** The checks `genCommaList` makes on one element, in order. */
  function ElementCheck(e: string, start: int, limit: int): (r: Result<int>)
    ensures r.Ok? <==> Atoi(e).Some? && start <= Atoi(e).value <= limit
    ensures r.Ok? ==> r.value == Atoi(e).value
  {
    match Atoi(e)
    case None => Err(ElementNotNumber(e))
    case Some(num) =>
      if num < start then Err(ElementBelowStart(num, start))
      else if num > limit then Err(ElementAboveLimit(num, limit))
      else Ok(num)
  }

  /** The elements checked left to right; the first failing one decides the error. */
  function CheckElements(parts: seq<string>, start: int, limit: int): Result<seq<int>> {
    if |parts| == 0 then Ok([])
    else
      match CheckElements(parts[..|parts| - 1], start, limit)
      case Err(e) => Err(e)
      case Ok(prefix) =>
        match ElementCheck(parts[|parts| - 1], start, limit)
        case Err(e) => Err(e)
        case Ok(num) => Ok(prefix + [num])
  }

  /** What `genCommaList` returns. */
  function CommaList(s: string, start: int, limit: int): Result<seq<int>> {
    CheckElements(Split(s, ','), start, limit)
  }

  /** Once a prefix of the elements fails, the whole list fails the same way. */
  lemma {:induction false} CheckElementsErrorSticks(parts: seq<string>, j: nat, start: int, limit: int)
    requires j <= |parts|
    requires CheckElements(parts[..j], start, limit).Err?
    ensures CheckElements(parts, start, limit) == CheckElements(parts[..j], start, limit)
    decreases |parts| - j
  {
    if j < |parts| {
      assert parts[..j + 1][..j] == parts[..j];
      CheckElementsErrorSticks(parts, j + 1, start, limit);
    } else {
      assert parts[..j] == parts;
    }
  }

  /** The list succeeds exactly when every element passes; then it holds the
      elements' values in input order and number, each within the domain.
      Otherwise the error is that of the first element that fails. */
  lemma {:induction false} CheckElementsSpec(parts: seq<string>, start: int, limit: int)
    ensures var r := CheckElements(parts, start, limit);
      && (r.Ok? <==> forall k :: 0 <= k < |parts| ==> ElementCheck(parts[k], start, limit).Ok?)
      && (r.Ok? ==>
            && |r.value| == |parts|
            && forall k :: 0 <= k < |parts| ==> ElementCheck(parts[k], start, limit) == Ok(r.value[k]))
      && (r.Err? ==>
            exists j ::
              && 0 <= j < |parts|
              && (forall k :: 0 <= k < j ==> ElementCheck(parts[k], start, limit).Ok?)
              && ElementCheck(parts[j], start, limit) == Err(r.error))
  {
    if |parts| > 0 {
      var n := |parts| - 1;
      var init := parts[..n];
      CheckElementsSpec(init, start, limit);
      assert forall k :: 0 <= k < n ==> init[k] == parts[k];
      var r := CheckElements(parts, start, limit);
      if CheckElements(init, start, limit).Err? {
        var j :| 0 <= j < n
          && (forall k :: 0 <= k < j ==> ElementCheck(init[k], start, limit).Ok?)
          && ElementCheck(init[j], start, limit) == Err(r.error);
        assert parts[j] == init[j];
      }
    }
  }

  /** `genCommaList`. */
  method GenCommaList(s: string, start: int, limit: int) returns (r: Result<seq<int>>)
    ensures r == CommaList(s, start, limit)
  {
    var strList := Split(s, ',');
    var numList := [];
    for i := 0 to |strList|
      invariant CheckElements(strList[..i], start, limit) == Ok(numList)
    {
      var e := strList[i];
      assert strList[..i + 1][..i] == strList[..i];
      var parsed := Atoi(e);
      if parsed.None? {
        CheckElementsErrorSticks(strList, i + 1, start, limit);
        return Err(ElementNotNumber(e));
      }
      var num := parsed.value;
      if num < start {
        CheckElementsErrorSticks(strList, i + 1, start, limit);
        return Err(ElementBelowStart(num, start));
      }
      if num > limit {
        CheckElementsErrorSticks(strList, i + 1, start, limit);
        return Err(ElementAboveLimit(num, limit));
      }
      numList := numList + [num];
    }
    assert strList[..|strList|] == strList;
    return Ok(numList);
  }
}
