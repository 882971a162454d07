/** The string primitives the parser relies on: Go's `strconv.Atoi`,
    `strconv.Itoa`, `strings.Split`, `strings.Join` and `strings.TrimLeft`,
    restricted to what parse_cron.go uses (ASCII digits, single-character
    separators and cut sets). */
module Text {
  import opened Outcomes

  predicate IsDigit(c: char) {
    '0' <= c <= '9'
  }

  /** A non-empty run of ASCII digits, the `\d+` of the Go regular expressions. */
  predicate IsDigitRun(s: string) {
    |s| > 0 && forall i :: 0 <= i < |s| ==> IsDigit(s[i])
  }

  /** Every piece is a digit run. */
  predicate AllDigitRuns(parts: seq<string>) {
    forall k :: 0 <= k < |parts| ==> IsDigitRun(parts[k])
  }

  /** Every character of `s` is a digit or `c`. */
  predicate DigitsOr(s: string, c: char) {
    forall i :: 0 <= i < |s| ==> IsDigit(s[i]) || s[i] == c
  }

  function DigitValue(c: char): (d: nat)
    requires IsDigit(c)
    ensures d < 10
  {
    c as int - '0' as int
  }

  function DigitChar(d: nat): (c: char)
    requires d < 10
    ensures IsDigit(c) && DigitValue(c) == d
  {
    ('0' as int + d) as char
  }

  /** The decimal value of a string of digits, most significant first. */
  function DigitsValue(s: string): nat
    requires forall i :: 0 <= i < |s| ==> IsDigit(s[i])
  {
    if |s| == 0 then 0 else DigitsValue(s[..|s| - 1]) * 10 + DigitValue(s[|s| - 1])
  }

  /** `strconv.Atoi`: an optional sign followed by one or more ASCII digits.
      Integers are unbounded here, so there is no range error. */
  function Atoi(s: string): Option<int> {
    if |s| > 0 && (s[0] == '+' || s[0] == '-') then
      if IsDigitRun(s[1..]) then
        Some(if s[0] == '-' then 0 - DigitsValue(s[1..]) as int else DigitsValue(s[1..]))
      else None
    else if IsDigitRun(s) then Some(DigitsValue(s))
    else None
  }

  /** The shortest decimal spelling of a natural number. */
  function NatDigits(n: nat): (s: string)
    ensures IsDigitRun(s) && DigitsValue(s) == n
    ensures n < 10 <==> |s| == 1
    ensures n >= 10 ==> s[0] != '0'
  {
    if n < 10 then [DigitChar(n)]
    else
      var s := NatDigits(n / 10) + [DigitChar(n % 10)];
      assert s[..|s| - 1] == NatDigits(n / 10);
      assert s[0] == NatDigits(n / 10)[0];
      assert n / 10 < 10 ==> DigitValue(s[0]) == n / 10;
      s
  }

  /** `strconv.Itoa`: decimal digits, with a leading '-' for negatives. */
  function Itoa(n: int): string {
    if n < 0 then "-" + NatDigits(-n) else NatDigits(n)
  }

  /** `Atoi` reads back what `Itoa` writes, and `Itoa` writes only
      digits and '-'. */
  lemma AtoiItoa(n: int)
    ensures Atoi(Itoa(n)) == Some(n)
    ensures DigitsOr(Itoa(n), '-')
  {
    var s := Itoa(n);
    if n < 0 {
      assert s[1..] == NatDigits(-n);
    } else {
      assert IsDigit(s[0]);
    }
  }

  /** `strings.Split(s, string(c))`: the pieces of `s` between occurrences
      of `c`; the empty string splits into one empty piece. */
  function Split(s: string, c: char): (parts: seq<string>)
    ensures |parts| >= 1
    ensures forall k :: 0 <= k < |parts| ==> c !in parts[k]
    ensures |parts[0]| <= |s| && parts[0] == s[..|parts[0]|]
  {
    if |s| == 0 then [""]
    else
      var rest := Split(s[1..], c);
      if s[0] == c then [""] + rest
      else [[s[0]] + rest[0]] + rest[1..]
  }

  /** `strings.Join(parts, string(c))`. */
  function Join(parts: seq<string>, c: char): string {
    if |parts| == 0 then ""
    else if |parts| == 1 then parts[0]
    else parts[0] + [c] + Join(parts[1..], c)
  }

  /** `strings.TrimLeft(s, cut)`: drop the longest prefix made of characters in `cut`. */
  function TrimLeft(s: string, cut: set<char>): (r: string)
    ensures |r| <= |s| && r == s[|s| - |r|..]
    ensures |r| > 0 ==> r[0] !in cut
    ensures forall i :: 0 <= i < |s| - |r| ==> s[i] in cut
  {
    if |s| > 0 && s[0] in cut then TrimLeft(s[1..], cut) else s
  }

  /** Joining the pieces of a split gives back the string. */
  lemma {:induction false} JoinSplit(s: string, c: char)
    ensures Join(Split(s, c), c) == s
  {
    if |s| > 0 {
      var rest := Split(s[1..], c);
      JoinSplit(s[1..], c);
      if s[0] == c {
        assert Join(Split(s, c), c) == "" + [c] + Join(rest, c);
      } else if |rest| == 1 {
        assert Join(Split(s, c), c) == [s[0]] + rest[0];
      } else {
        assert Join(rest, c) == rest[0] + [c] + Join(rest[1..], c);
        assert Split(s, c)[1..] == rest[1..];
        assert Join(Split(s, c), c) == [s[0]] + rest[0] + [c] + Join(rest[1..], c);
      }
    }
  }

  /** A string without the separator is one piece. */
  lemma {:induction false} SplitNoSeparator(s: string, c: char)
    requires c !in s
    ensures Split(s, c) == [s]
  {
    if |s| > 0 {
      SplitNoSeparator(s[1..], c);
      assert [s[0]] + s[1..] == s;
    }
  }

  /** Splitting `p c t`, where `p` holds no `c`, yields `p` then the pieces of `t`. */
  lemma {:induction false} SplitAfterPiece(p: string, c: char, t: string)
    requires c !in p
    ensures Split(p + [c] + t, c) == [p] + Split(t, c)
  {
    if |p| == 0 {
      assert p + [c] + t == [c] + t;
      assert ([c] + t)[1..] == t;
    } else {
      SplitAfterPiece(p[1..], c, t);
      assert (p + [c] + t)[1..] == p[1..] + [c] + t;
      assert [p[0]] + p[1..] == p;
    }
  }

  /** Splitting a join of separator-free pieces gives back the pieces. */
  lemma {:induction false} SplitJoin(parts: seq<string>, c: char)
    requires |parts| >= 1
    requires forall k :: 0 <= k < |parts| ==> c !in parts[k]
    ensures Split(Join(parts, c), c) == parts
  {
    if |parts| == 1 {
      SplitNoSeparator(parts[0], c);
    } else {
      SplitJoin(parts[1..], c);
      SplitAfterPiece(parts[0], c, Join(parts[1..], c));
      assert [parts[0]] + parts[1..] == parts;
    }
  }

  /** A join of digit runs uses only digits and the separator. */
  lemma {:induction false} JoinChars(parts: seq<string>, c: char)
    requires AllDigitRuns(parts)
    ensures DigitsOr(Join(parts, c), c)
  {
    if |parts| > 1 {
      JoinChars(parts[1..], c);
      var j := Join(parts, c);
      assert j == parts[0] + ([c] + Join(parts[1..], c));
      forall i | 0 <= i < |j| ensures IsDigit(j[i]) || j[i] == c {
        if i < |parts[0]| {
          assert j[i] == parts[0][i];
        } else if i > |parts[0]| {
          assert j[i] == Join(parts[1..], c)[i - |parts[0]| - 1];
        }
      }
    }
  }

  /** The last piece of a join ends it. */
  lemma {:induction false} JoinLast(parts: seq<string>, c: char)
    requires |parts| >= 1
    ensures var j, l := Join(parts, c), parts[|parts| - 1];
      |l| <= |j| && j[|j| - |l|..] == l
  {
    if |parts| > 1 {
      JoinLast(parts[1..], c);
    }
  }

  /** A token made of several digit runs separated by `c` consists of
      digits and `c`, contains `c`, begins with a digit and ends with one. */
  lemma SplitDigitRuns(s: string, c: char)
    requires |Split(s, c)| >= 2
    requires forall k :: 0 <= k < |Split(s, c)| ==> IsDigitRun(Split(s, c)[k])
    ensures DigitsOr(s, c) && c in s
    ensures |s| > 0 && IsDigit(s[0]) && IsDigit(s[|s| - 1])
  {
    var parts := Split(s, c);
    JoinSplit(s, c);
    JoinChars(parts, c);
    JoinLast(parts, c);
    if c !in s {
      SplitNoSeparator(s, c);
    }
    var l := parts[|parts| - 1];
    assert s[|s| - 1] == l[|l| - 1];
    assert s[0] == parts[0][0];
  }
}
