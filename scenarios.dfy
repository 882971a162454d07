/** Concrete tokens and lines that show the code's behaviour as written,
    stated as facts about the model. */
module Scenarios {
  import opened Outcomes
  import opened Text
  import opened Generators
  import opened NumDef
  import opened CronParser

  /** Two strictly ascending sequences with the same members are equal. */
  lemma {:induction false} AscendingUnique(a: seq<int>, b: seq<int>)
    requires StrictlyAscending(a) && StrictlyAscending(b)
    requires forall x :: x in a <==> x in b
    ensures a == b
  {
    if |a| > 0 {
      assert a[0] in a;
    }
    if |b| > 0 {
      assert b[0] in b;
    }
    if |a| == 0 || |b| == 0 {
    } else {
      assert a[0] in b && b[0] in a;
      assert |b| > 0;
      assert a[0] == b[0];
      forall x ensures x in a[1..] <==> x in b[1..] {
        assert x in a[1..] <==> x in a && x != a[0];
        assert x in b[1..] <==> x in b && x != b[0];
      }
      AscendingUnique(a[1..], b[1..]);
      assert a == [a[0]] + a[1..] && b == [b[0]] + b[1..];
    }
  }

  /** A decimal literal reads as its value. */
  lemma Reads(n: int, s: string)
    requires Itoa(n) == s
    ensures Atoi(s) == Some(n)
  {
    AtoiItoa(n);
  }

  /** A range token's bounds are its first and last characters: "10-12"
      denotes 1 and 2. */
  lemma RangeTenToTwelve()
    ensures ParseNumDef("10-12", 0, 59) == Ok([1, 2])
  {
    assert IsRangeToken("10-12");
    RangeField("10-12", 0, 59);
    var r := ParseNumDef("10-12", 0, 59).value;
    assert r[0] == 1 && r[1] == 2 && |r| == 2;
    assert r == [1, 2];
  }

  /** "1-59" in the hour field denotes 1 to 9, not an error. */
  lemma RangeOneToFiftyNine()
    ensures ParseHours("1-59") == Ok([1, 2, 3, 4, 5, 6, 7, 8, 9])
  {
    assert IsRangeToken("1-59");
    RangeField("1-59", 0, 23);
    assert DigitValue('9') == 9 && DigitValue('1') == 1;
    OneToNine(ParseNumDef("1-59", 0, 23).value);
  }

  /** The values 1 to 9 in order. */
  lemma OneToNine(r: seq<int>)
    requires |r| == 9 && forall k :: 0 <= k < 9 ==> r[k] == k + 1
    ensures r == [1, 2, 3, 4, 5, 6, 7, 8, 9]
  {
  }

  /** A singleton is not checked against the domain. */
  lemma SingletonIsUnchecked()
    ensures ParseHours("1000") == Ok([1000])
    ensures ParseDayOfMonth("0") == Ok([0])
    ensures ParseMinute("-5") == Ok([-5])
  {
    Reads(1000, "1000");
    Reads(0, "0");
    Reads(-5, "-5");
  }

  /** "0" is read as the single value 0 in every field, even where the domain starts at 1. */
  lemma Zeros()
    ensures ParseMinute("0") == Ok([0]) && ParseHours("0") == Ok([0])
    ensures ParseDayOfMonth("0") == Ok([0]) && ParseMonth("0") == Ok([0]) && ParseDayOfWeek("0") == Ok([0])
  {
    Reads(0, "0");
  }

  /** "*" parses in every field. */
  lemma Wildcards()
    ensures ParseMinute("*").Ok? && ParseHours("*").Ok? && ParseDayOfMonth("*").Ok?
    ensures ParseMonth("*").Ok? && ParseDayOfWeek("*").Ok?
  {
  }

  /** "/15" matches no shape and is not an integer. */
  lemma SlashFifteenUnrecognised()
    ensures ParseMinute("/15") == Err(InvalidDefinition("/15"))
  {
    var s := "/15";
    assert s[..2][0] == '/';
    SplitNoSeparator(s, '-');
    SplitNoSeparator(s, ',');
    assert !IsDigit(s[0]);
    assert IsUnrecognised(s);
  }

  /** "a" matches no shape and is not an integer. */
  lemma LetterUnrecognised()
    ensures ParseDayOfWeek("a") == Err(InvalidDefinition("a"))
  {
    var s := "a";
    SplitNoSeparator(s, '-');
    SplitNoSeparator(s, ',');
    assert !IsDigit(s[0]);
    assert IsUnrecognised(s);
  }

  /** A step in a domain starting at 1 begins at the first multiple, not at 1. */
  lemma StepSkipsDomainStart()
    ensures ParseDayOfMonth("*/5").Ok?
    ensures 1 !in ParseDayOfMonth("*/5").value && 5 in ParseDayOfMonth("*/5").value
  {
    Reads(5, "5");
    assert "*/5"[2..] == "5";
    StepFieldMultiples("*/5", 1, 31);
  }

  /** The minutes divisible by 15. */
  lemma QuarterOfHour(x: int)
    ensures 0 <= x <= 59 && x % 15 == 0 <==> x in [0, 15, 30, 45]
  {
    if 0 <= x <= 59 && x % 15 == 0 {
      var q := x / 15;
      assert x == 15 * q;
      assert 0 <= q <= 3;
      assert q == 0 || q == 1 || q == 2 || q == 3;
    }
  }

  // "*/15" is a step token with interval 15.
  lemma FifteenStep()
    ensures IsStepToken("*/15") && DigitsValue("*/15"[2..]) == 15
  {
    assert "*/15"[..2] == "*/" && "*/15"[2..] == "15";
    assert "15"[..1] == "1" && "1"[..0] == "";
  }

  // "*/15" in the minute field: the multiples of 15, ascending.
  lemma EveryFifteen()
    ensures ParseNumDef("*/15", 0, 59).Ok? && StrictlyAscending(ParseNumDef("*/15", 0, 59).value)
    ensures forall x :: x in ParseNumDef("*/15", 0, 59).value <==> 0 <= x <= 59 && x % 15 == 0
  {
    FifteenStep();
    StepField("*/15", 0, 59);
    StepFieldMultiples("*/15", 0, 59);
  }

  // "*/15" in the minute field: the four quarter hours.
  lemma QuarterHours()
    ensures ParseMinute("*/15") == Ok([0, 15, 30, 45])
  {
    EveryFifteen();
    QuarterList(ParseNumDef("*/15", 0, 59).value);
  }

  /** The ascending minutes divisible by 15 are the four quarter hours. */
  lemma QuarterList(r: seq<int>)
    requires StrictlyAscending(r)
    requires forall x :: x in r <==> 0 <= x <= 59 && x % 15 == 0
    ensures r == [0, 15, 30, 45]
  {
    forall x ensures x in r <==> x in [0, 15, 30, 45] {
      QuarterOfHour(x);
    }
    AscendingUnique(r, [0, 15, 30, 45]);
  }

  /** "1,15" in the day-of-month field: the 1st and the 15th. */
  lemma FirstAndFifteenth()
    ensures ParseDayOfMonth("1,15") == Ok([1, 15])
  {
    SplitsOneFifteen();
    ListField("1,15", 1, 31);
    assert DigitsValue("1") == 1 && DigitsValue("15") == 15;
    var r := ParseNumDef("1,15", 1, 31);
    Pair(r.value, 1, 15);
  }

  /** "1,15" is a list token of two pieces. */
  lemma SplitsOneFifteen()
    ensures Split("1,15", ',') == ["1", "15"] && IsListToken("1,15")
  {
    SplitAfterPiece("1", ',', "15");
    SplitNoSeparator("15", ',');
    assert "1" + [','] + "15" == "1,15";
  }

  /** A sequence of two given values. */
  lemma Pair(r: seq<int>, a: int, b: int)
    requires |r| == 2 && r[0] == a && r[1] == b
    ensures r == [a, b]
  {
  }

  /** "*" in the month field: every month. */
  lemma EveryMonth()
    ensures ParseMonth("*") == Ok([1, 2, 3, 4, 5, 6, 7, 8, 9, 10, 11, 12])
  {
    WildcardField(1, 12);
    var r := ParseMonth("*").value;
    assert |r| == 12 && forall k :: 0 <= k < 12 ==> r[k] == 1 + k;
    assert r == [1, 2, 3, 4, 5, 6, 7, 8, 9, 10, 11, 12];
  }

  /** "1-5" in the day-of-week field: days 1 to 5. */
  lemma DaysOneToFive()
    ensures ParseDayOfWeek("1-5") == Ok([1, 2, 3, 4, 5])
  {
    assert IsRangeToken("1-5");
    RangeField("1-5", 1, 7);
    assert DigitValue('5') == 5 && DigitValue('1') == 1;
    OneToFive(ParseNumDef("1-5", 1, 7).value);
  }

  /** The values 1 to 5 in order. */
  lemma OneToFive(r: seq<int>)
    requires |r| == 5 && forall k :: 0 <= k < 5 ==> r[k] == k + 1
    ensures r == [1, 2, 3, 4, 5]
  {
  }

  /** A line whose five fields parse is the line of their values, whatever
      whitespace separates its tokens. */
  lemma LineOf(fields: seq<string>, gaps: seq<string>, command: string,
    m: seq<int>, h: seq<int>, dom: seq<int>, mon: seq<int>, dow: seq<int>)
    requires |fields| == 5 && LinePieces(fields, gaps, command)
    requires ParseMinute(fields[0]) == Ok(m) && ParseHours(fields[1]) == Ok(h)
    requires ParseDayOfMonth(fields[2]) == Ok(dom) && ParseMonth(fields[3]) == Ok(mon)
    requires ParseDayOfWeek(fields[4]) == Ok(dow)
    ensures ParseCronLine(Spaced(fields, gaps, command)) == Ok(CronLine(m, h, dom, mon, dow, command))
  {
    SplitLineSpec(Spaced(fields, gaps, command), fields, command);
  }

  /** A line whose five tokens are all integers parses, whatever their
      values: "0 1000 0 0 0 /usr/bin/find" is accepted with hour 1000 and
      day of month, month and day of week 0. */
  lemma IntegerFieldsAccepted(fields: seq<string>, gaps: seq<string>, command: string)
    requires |fields| == 5 && LinePieces(fields, gaps, command)
    requires forall j :: 0 <= j < 5 ==> Atoi(fields[j]).Some?
    ensures ParseCronLine(Spaced(fields, gaps, command)) ==
      Ok(CronLine([Atoi(fields[0]).value], [Atoi(fields[1]).value], [Atoi(fields[2]).value],
        [Atoi(fields[3]).value], [Atoi(fields[4]).value], command))
  {
    LineOf(fields, gaps, command, [Atoi(fields[0]).value], [Atoi(fields[1]).value], [Atoi(fields[2]).value],
      [Atoi(fields[3]).value], [Atoi(fields[4]).value]);
  }

  /** The minute field is parsed first: when it fails, the line fails with its
      error whatever the other tokens are, as for "/15 0 1,15 * 1-5 /usr/bin/find". */
  lemma MinuteFails(fields: seq<string>, gaps: seq<string>, command: string)
    requires |fields| == 5 && LinePieces(fields, gaps, command)
    requires ParseMinute(fields[0]).Err?
    ensures ParseCronLine(Spaced(fields, gaps, command)) == Err(ParseMinute(fields[0]).error)
  {
    SplitLineSpec(Spaced(fields, gaps, command), fields, command);
  }
}
