/** `parseCronLine` and `joinInts` of parse_cron.go: the line is split into
    five field tokens and a command, and the fields are parsed in order,
    minute to day of week, stopping at the first error. Where the Go code
    prints the error and exits, this model returns it. */
module CronParser {
  import opened Outcomes
  import opened Text
  import opened NumDef

  /** `\s` of Go's regular expressions: space, tab, newline, form feed, carriage return. */
  predicate IsSpace(c: char) {
    c == ' ' || c == '\t' || c == '\n' || c == 12 as char || c == '\r'
  }

  predicate NoSpace(s: string) {
    forall i :: 0 <= i < |s| ==> !IsSpace(s[i])
  }

  /** Length of the longest prefix without whitespace (`\S+` taken greedily). */
  function SpanNonSpace(s: string): (n: nat)
    ensures n <= |s| && NoSpace(s[..n])
    ensures n < |s| ==> IsSpace(s[n])
  {
    if |s| == 0 || IsSpace(s[0]) then 0 else 1 + SpanNonSpace(s[1..])
  }

  /** Length of the longest whitespace prefix (`\s+` taken greedily). */
  function SpanSpace(s: string): (n: nat)
    ensures n <= |s| && forall i :: 0 <= i < n ==> IsSpace(s[i])
    ensures n < |s| ==> !IsSpace(s[n])
  {
    if |s| == 0 || !IsSpace(s[0]) then 0 else 1 + SpanSpace(s[1..])
  }

  /** A `\s+` separator: a non-empty run of whitespace. */
  predicate IsGap(w: string) {
    |w| > 0 && forall i :: 0 <= i < |w| ==> IsSpace(w[i])
  }

  predicate AllGaps(gaps: seq<string>) {
    forall j :: 0 <= j < |gaps| ==> IsGap(gaps[j])
  }

  /** A token, the whitespace run after it, and what follows. */
  datatype Cut = Cut(token: string, gap: string, rest: string)

  /** `(\S+)\s+` at the start of `s`, both runs taken greedily. It matches
      exactly when `s` starts with a non-whitespace character and holds some
      whitespace; what follows the run then does not start with whitespace. */
  function NextToken(s: string): (r: Option<Cut>)
    ensures r.None? <==> |s| == 0 || IsSpace(s[0]) || NoSpace(s)
    ensures r.Some? ==>
      && |r.value.token| > 0 && NoSpace(r.value.token) && IsGap(r.value.gap)
      && s == r.value.token + r.value.gap + r.value.rest
      && (|r.value.rest| > 0 ==> !IsSpace(r.value.rest[0]))
  {
    var t := SpanNonSpace(s);
    if t == 0 then None
    else
      var w := SpanSpace(s[t..]);
      if w == 0 then
        assert s[..t] == s;
        None
      else
        assert s == s[..t] + s[t..t + w] + s[t + w..];
        var gap := s[t..t + w];
        assert IsGap(gap) by {
          forall i | 0 <= i < |gap| ensures IsSpace(gap[i]) {
            assert gap[i] == s[t..][i];
          }
        }
        Some(Cut(s[..t], gap, s[t + w..]))
  }

  /** The groups of `^(\S+)\s+(\S+)\s+(\S+)\s+(\S+)\s+(\S+)\s+(.+)$`. */
  datatype LineGroups = LineGroups(fields: seq<string>, command: string)

  /** The tokens, each followed by its own separator, then the command. */
  function Spaced(fields: seq<string>, gaps: seq<string>, command: string): string
    requires |gaps| == |fields|
  {
    if |fields| == 0 then command else fields[0] + gaps[0] + Spaced(fields[1..], gaps[1..], command)
  }

  /** Pieces the line expression is made of: non-empty whitespace-free
      tokens, as many whitespace separators, and a non-empty command that
      does not start with whitespace and holds no newline. */
  predicate LinePieces(fields: seq<string>, gaps: seq<string>, command: string) {
    && |fields| == |gaps| >= 1
    && (forall j :: 0 <= j < |fields| ==> |fields[j]| > 0 && NoSpace(fields[j]))
    && AllGaps(gaps)
    && |command| > 0 && !IsSpace(command[0]) && '\n' !in command
  }

  /** `s` is the tokens and command of `g` with the separators `gaps`. */
  predicate PiecesOf(s: string, g: LineGroups, gaps: seq<string>) {
    LinePieces(g.fields, gaps, g.command) && s == Spaced(g.fields, gaps, g.command)
  }

  /** `k` non-empty whitespace-free tokens, each followed by whitespace, then
      a non-empty command with no newline (`.` does not match a newline):
      when it succeeds, the line is its tokens and command with a run of
      whitespace after each token. */
  function Groups(s: string, k: nat): (r: Option<LineGroups>)
    requires k >= 1
    ensures r.Some? ==> |r.value.fields| == k && exists gaps :: PiecesOf(s, r.value, gaps)
    decreases k
  {
    match NextToken(s)
    case None => None
    case Some(c) =>
      if k == 1 then
        if |c.rest| > 0 && '\n' !in c.rest then
          PiecesLast(s, c);
          Some(LineGroups([c.token], c.rest))
        else None
      else
        match Groups(c.rest, k - 1)
        case None => None
        case Some(g) =>
          PiecesMore(s, c, g);
          Some(LineGroups([c.token] + g.fields, g.command))
  }

  /** The line regular expression of `parseCronLine`. */
  function SplitLine(l: string): Option<LineGroups> {
    Groups(l, 5)
  }

  /** `NextToken` cuts a token, a whitespace run and a tail that does not
      start with whitespace exactly between them. */
  lemma NextTokenOf(f: string, w: string, tail: string)
    requires |f| > 0 && NoSpace(f) && IsGap(w) && (|tail| > 0 ==> !IsSpace(tail[0]))
    ensures NextToken(f + w + tail) == Some(Cut(f, w, tail))
  {
    var s := f + w + tail;
    assert s == f + (w + tail);
    SpanNonSpacePrefix(f, w + tail);
    assert s[|f|..] == w + tail;
    SpanSpaceGap(w, tail);
    assert s[..|f|] == f && s[|f|..|f| + |w|] == w && s[|f| + |w|..] == tail;
  }

  /** Tokens and a command, each token followed by any run of whitespace,
      split back into exactly those tokens and that command. */
  lemma GroupsSpaced(fields: seq<string>, gaps: seq<string>, command: string)
    requires LinePieces(fields, gaps, command)
    ensures Groups(Spaced(fields, gaps, command), |fields|) == Some(LineGroups(fields, command))
    decreases |fields|, 1
  {
    if |fields| == 1 {
      assert fields == [fields[0]];
      assert Spaced(fields, gaps, command) == fields[0] + gaps[0] + command;
      NextTokenOf(fields[0], gaps[0], command);
    } else {
      GroupsSpacedMore(fields, gaps, command);
    }
  }

  lemma GroupsSpacedMore(fields: seq<string>, gaps: seq<string>, command: string)
    requires LinePieces(fields, gaps, command) && |fields| > 1
    ensures Groups(Spaced(fields, gaps, command), |fields|) == Some(LineGroups(fields, command))
    decreases |fields|, 0
  {
    SpacedTail(fields, gaps, command);
    GroupsSpaced(fields[1..], gaps[1..], command);
    GroupsCons(fields[0], gaps[0], Spaced(fields[1..], gaps[1..], command), |fields|, LineGroups(fields[1..], command));
  }

  /** The first token and separator of a line, and the pieces of the rest. */
  lemma SpacedTail(fields: seq<string>, gaps: seq<string>, command: string)
    requires LinePieces(fields, gaps, command) && |fields| > 1
    ensures LinePieces(fields[1..], gaps[1..], command)
    ensures Spaced(fields, gaps, command) == fields[0] + gaps[0] + Spaced(fields[1..], gaps[1..], command)
    ensures |Spaced(fields[1..], gaps[1..], command)| > 0 && !IsSpace(Spaced(fields[1..], gaps[1..], command)[0])
    ensures [fields[0]] + fields[1..] == fields
  {
    assert forall j :: 0 <= j < |fields| - 1 ==> fields[1..][j] == fields[j + 1] && gaps[1..][j] == gaps[j + 1];
    SpacedFirst(fields[1..], gaps[1..], command);
  }

  /** A token and a whitespace run in front of a tail that `Groups` splits. */
  lemma GroupsCons(f: string, w: string, tail: string, k: nat, h: LineGroups)
    requires k > 1 && |f| > 0 && NoSpace(f) && IsGap(w) && |tail| > 0 && !IsSpace(tail[0])
    requires Groups(tail, k - 1) == Some(h)
    ensures Groups(f + w + tail, k) == Some(LineGroups([f] + h.fields, h.command))
  {
    NextTokenOf(f, w, tail);
  }

  lemma SpacedFirst(fields: seq<string>, gaps: seq<string>, command: string)
    requires |gaps| == |fields| >= 1 && |fields[0]| > 0
    ensures |Spaced(fields, gaps, command)| > 0 && Spaced(fields, gaps, command)[0] == fields[0][0]
  {
  }

  /** The pieces of a line whose command follows its last token. */
  lemma PiecesLast(s: string, c: Cut)
    requires NextToken(s) == Some(c) && |c.rest| > 0 && '\n' !in c.rest
    ensures PiecesOf(s, LineGroups([c.token], c.rest), [c.gap])
  {
    PiecesCons(c.token, c.gap, c.rest, [], [], c.rest);
  }

  /** The pieces of a line whose first token is followed by a split tail. */
  lemma PiecesMore(s: string, c: Cut, g: LineGroups)
    requires NextToken(s) == Some(c) && exists more :: PiecesOf(c.rest, g, more)
    ensures exists gaps :: PiecesOf(s, LineGroups([c.token] + g.fields, g.command), gaps)
  {
    var more :| PiecesOf(c.rest, g, more);
    PiecesCons(c.token, c.gap, c.rest, g.fields, more, g.command);
    assert PiecesOf(s, LineGroups([c.token] + g.fields, g.command), [c.gap] + more);
  }

  /** A token and a whitespace run put in front of the pieces of a tail. */
  lemma PiecesCons(f: string, gap: string, rest: string, fields: seq<string>, gaps: seq<string>, command: string)
    requires |f| > 0 && NoSpace(f) && IsGap(gap)
    requires fields == [] ==> gaps == [] && rest == command && |command| > 0 && !IsSpace(command[0]) && '\n' !in command
    requires fields != [] ==> LinePieces(fields, gaps, command) && rest == Spaced(fields, gaps, command)
    ensures LinePieces([f] + fields, [gap] + gaps, command)
    ensures f + gap + rest == Spaced([f] + fields, [gap] + gaps, command)
  {
    assert ([f] + fields)[1..] == fields && ([gap] + gaps)[1..] == gaps;
  }

  lemma {:induction false} SpanNonSpacePrefix(f: string, t: string)
    requires NoSpace(f) && |t| > 0 && IsSpace(t[0])
    ensures SpanNonSpace(f + t) == |f|
  {
    if |f| > 0 {
      assert (f + t)[1..] == f[1..] + t;
      SpanNonSpacePrefix(f[1..], t);
    }
  }

  lemma {:induction false} SpanSpaceGap(w: string, t: string)
    requires IsGap(w) && (|t| > 0 ==> !IsSpace(t[0]))
    ensures SpanSpace(w + t) == |w|
  {
    assert (w + t)[1..] == w[1..] + t;
    if |w| > 1 {
      SpanSpaceGap(w[1..], t);
    } else {
      assert w[1..] + t == t;
    }
  }

  /** The line format, both ways: a line splits into five tokens and a
      command exactly when it is those five non-empty whitespace-free tokens,
      each followed by a non-empty run of whitespace, then a non-empty
      command that does not start with whitespace and holds no newline. */
  lemma SplitLineSpec(l: string, fields: seq<string>, command: string)
    ensures SplitLine(l) == Some(LineGroups(fields, command)) <==>
      && |fields| == 5
      && exists gaps :: LinePieces(fields, gaps, command) && l == Spaced(fields, gaps, command)
  {
    if |fields| == 5 && exists gaps :: LinePieces(fields, gaps, command) && l == Spaced(fields, gaps, command) {
      var gaps :| LinePieces(fields, gaps, command) && l == Spaced(fields, gaps, command);
      GroupsSpaced(fields, gaps, command);
    }
  }

  /** A parsed line: the five fields' values and the command. */
  datatype CronLine = CronLine(
    minute: seq<int>,
    hour: seq<int>,
    dayOfMonth: seq<int>,
    month: seq<int>,
    dayOfWeek: seq<int>,
    command: string)

  /** `parseCronLine`: a line either parses completely or yields the error of
      the first field, in the order minute, hour, day of month, month, day of
      week, that fails; no partially parsed line is ever returned. */
  function ParseCronLine(l: string): (r: Result<CronLine>)
    ensures SplitLine(l).None? ==> r == Err(LineFormat)
    ensures SplitLine(l).Some? ==>
      var f := SplitLine(l).value.fields;
      && (r.Ok? <==>
            ParseMinute(f[0]).Ok? && ParseHours(f[1]).Ok? && ParseDayOfMonth(f[2]).Ok?
            && ParseMonth(f[3]).Ok? && ParseDayOfWeek(f[4]).Ok?)
      && (r.Ok? ==>
            r.value == CronLine(ParseMinute(f[0]).value, ParseHours(f[1]).value,
              ParseDayOfMonth(f[2]).value, ParseMonth(f[3]).value, ParseDayOfWeek(f[4]).value,
              SplitLine(l).value.command))
      && (ParseMinute(f[0]).Err? ==> r == Err(ParseMinute(f[0]).error))
      && (ParseMinute(f[0]).Ok? && ParseHours(f[1]).Err? ==> r == Err(ParseHours(f[1]).error))
      && (ParseMinute(f[0]).Ok? && ParseHours(f[1]).Ok? && ParseDayOfMonth(f[2]).Err? ==>
            r == Err(ParseDayOfMonth(f[2]).error))
      && (&& ParseMinute(f[0]).Ok? && ParseHours(f[1]).Ok? && ParseDayOfMonth(f[2]).Ok?
          && ParseMonth(f[3]).Err?
          ==> r == Err(ParseMonth(f[3]).error))
      && (&& ParseMinute(f[0]).Ok? && ParseHours(f[1]).Ok? && ParseDayOfMonth(f[2]).Ok?
          && ParseMonth(f[3]).Ok? && ParseDayOfWeek(f[4]).Err?
          ==> r == Err(ParseDayOfWeek(f[4]).error))
  {
    match SplitLine(l)
    case None => Err(LineFormat)
    case Some(g) =>
      var f := g.fields;
      match ParseMinute(f[0])
      case Err(e) => Err(e)
      case Ok(minutes) =>
        match ParseHours(f[1])
        case Err(e) => Err(e)
        case Ok(hours) =>
          match ParseDayOfMonth(f[2])
          case Err(e) => Err(e)
          case Ok(daysOfMonth) =>
            match ParseMonth(f[3])
            case Err(e) => Err(e)
            case Ok(months) =>
              match ParseDayOfWeek(f[4])
              case Err(e) => Err(e)
              case Ok(daysOfWeek) => Ok(CronLine(minutes, hours, daysOfMonth, months, daysOfWeek, g.command))
  }

  /** `joinInts`: the values in decimal, separated by single spaces. For a
      non-empty list, splitting the text on spaces and reading each piece back
      gives the values again; the empty list gives "". */
  method JoinInts(sl: seq<int>) returns (joined: string)
    ensures joined == Join(seq(|sl|, k requires 0 <= k < |sl| => Itoa(sl[k])), ' ')
    ensures sl == [] ==> joined == ""
    ensures sl != [] ==>
      && |Split(joined, ' ')| == |sl|
      && forall k :: 0 <= k < |sl| ==> Atoi(Split(joined, ' ')[k]) == Some(sl[k])
  {
    var slStr: seq<string> := [];
    for i := 0 to |sl|
      invariant |slStr| == i
      invariant forall k :: 0 <= k < i ==> slStr[k] == Itoa(sl[k])
    {
      slStr := slStr + [Itoa(sl[i])];
    }
    joined := Join(slStr, ' ');
    assert slStr == seq(|sl|, k requires 0 <= k < |sl| => Itoa(sl[k]));
    if sl != [] {
      forall k | 0 <= k < |slStr| ensures ' ' !in slStr[k] {
        AtoiItoa(sl[k]);
        assert forall i :: 0 <= i < |slStr[k]| ==> slStr[k][i] != ' ';
      }
      SplitJoin(slStr, ' ');
      forall k | 0 <= k < |sl| ensures Atoi(Split(joined, ' ')[k]) == Some(sl[k]) {
        AtoiItoa(sl[k]);
      }
    }
  }
}
