/** Assignment3: the logger's level filter and command listener, the log server's file,
    dump and level command, and what they guarantee together. */
module LogServer {
  import opened Sequences
  import opened Text
  import opened LogFormat

  // --------------------------------------------------------------- filtered dumps

  /** dump_log_file's two filters: exactly the level, or at least the level. */
  function Shown(exact: bool, l: Level): string -> bool {
    (line: string) => if exact then Classify(line) == l else Rank(Classify(line)) >= Rank(l)
  }

  lemma {:induction false} FilterSame(p: string -> bool, q: string -> bool, s: seq<string>)
    requires forall x | x in s :: p(x) == q(x)
    ensures Filter(p, s) == Filter(q, s)
  {
    if s != [] {
      FilterSame(p, q, s[1..]);
    }
  }

  lemma {:induction false} FilterCounts(p: string -> bool, s: seq<string>, x: string)
    ensures multiset(Filter(p, s))[x] == if p(x) then multiset(s)[x] else 0
  {
    if s != [] {
      FilterCounts(p, s[1..], x);
      assert s == [s[0]] + s[1..];
    }
  }

  /** What a dump prints, as a selection of the lines and as counts. */
  lemma {:induction false} ShownMeans(exact: bool, l: Level, lines: seq<string>)
    ensures exact ==> Filter(Shown(exact, l), lines) == Filter((line: string) => Classify(line) == l, lines)
    ensures !exact ==> Filter(Shown(exact, l), lines) == Filter((line: string) => Rank(Classify(line)) >= Rank(l), lines)
    ensures exact ==>
      forall x :: multiset(Filter(Shown(exact, l), lines))[x] == (if Classify(x) == l then multiset(lines)[x] else 0)
    ensures !exact ==>
      forall x :: multiset(Filter(Shown(exact, l), lines))[x] == (if Rank(Classify(x)) >= Rank(l) then multiset(lines)[x] else 0)
  {
    if exact {
      FilterSame(Shown(exact, l), (line: string) => Classify(line) == l, lines);
    } else {
      FilterSame(Shown(exact, l), (line: string) => Rank(Classify(line)) >= Rank(l), lines);
    }
    forall x ensures multiset(Filter(Shown(exact, l), lines))[x] == (if Shown(exact, l)(x) then multiset(lines)[x] else 0) {
      FilterCounts(Shown(exact, l), lines, x);
    }
  }

  /** Does the logger send the call, given its own level? Levels are ints there. */
  predicate Sends(c: Call, logLevel: int) {
    Rank(c.level) >= logLevel
  }

  /** A call and the logger's level at the time of the call. */
  datatype Event = Event(call: Call, logLevel: int)

  function SentRecords(events: seq<Event>): seq<string> {
    if events == [] then []
    else
      var e := events[|events| - 1];
      SentRecords(events[..|events| - 1]) + SentBy(e)
  }

  function SentBy(e: Event): seq<string> {
    if Sends(e.call, e.logLevel) then [Record(e.call)] else []
  }

  /** The lines that ought to be shown: for each sent call whose level passes the server's
      filter, the first line of its record as received. */
  function ExpectedLines(events: seq<Event>, exact: bool, l: Level): seq<string> {
    if events == [] then []
    else
      var e := events[|events| - 1];
      ExpectedLines(events[..|events| - 1], exact, l)
      + ExpectedOf(e, exact, l)
  }

  /** What the server has received once every record has been delivered. */
  function Delivered(records: seq<string>): seq<string> {
    if records == [] then [] else Delivered(records[..|records| - 1]) + [Received(records[|records| - 1])]
  }

  function ExpectedOf(e: Event, exact: bool, l: Level): seq<string> {
    if Rank(e.call.level) >= e.logLevel && (if exact then e.call.level == l else Rank(e.call.level) >= Rank(l))
    then [Pieces(Received(Record(e.call)))[0]] else []
  }

  /** A call whose text does not disturb the classification: no part of its first line names
      a higher level, and later lines of the message, if any, name none. */
  predicate Plain(c: Call) {
    && IsTimestamp(c.ts)
    && '\n' !in c.file && '\n' !in c.func
    && Rank(PartsLevel(c)) <= Rank(c.level)
    && forall i | 0 < i < |Pieces(c.message)| :: Classify(Pieces(c.message)[i]) == DEBUG
  }

  lemma {:induction false} PiecesAt(s: string, i: nat)
    requires i < |s| && FirstNewline(s) == i
    ensures Pieces(s) == [s[..i]] + Pieces(s[i + 1..])
  {
  }

  lemma {:induction false} PiecesWhole(s: string)
    requires FirstNewline(s) == |s|
    ensures Pieces(s) == [s]
  {
  }

  lemma {:induction false} Prepended(a: string, b: string, i: nat)
    requires i <= |b|
    ensures (a + b)[..|a| + i] == a + b[..i]
    ensures i < |b| ==> (a + b)[|a| + i] == b[i] && (a + b)[|a| + i + 1..] == b[i + 1..]
    ensures i == |b| ==> a + b[..i] == a + b && |a + b| == |a| + i
  {
    assert b[..|b|] == b;
  }

  lemma {:induction false} FirstNewlineAfter(a: string, b: string)
    requires '\n' !in a
    ensures FirstNewline(a + b) == |a| + FirstNewline(b)
  {
    Prepended(a, b, FirstNewline(b));
    NewlineAt(a + b, |a| + FirstNewline(b));
  }

  lemma {:induction false} PiecesBy(s: string, i: nat, more: seq<string>)
    requires FirstNewline(s) == i
    requires more == if i < |s| then Pieces(s[i + 1..]) else []
    ensures Pieces(s) == [s[..i]] + more
  {
    if i < |s| {
      PiecesAt(s, i);
    } else {
      PiecesWhole(s);
      assert s[..i] == s;
    }
  }

  lemma {:induction false} LongerFirst(longer: seq<string>, pieces: seq<string>, a: string, first: string, more: seq<string>)
    requires longer == [a + first] + more && pieces == [first] + more
    ensures longer == [a + pieces[0]] + pieces[1..]
  {
    assert pieces[1..] == more;
  }

  /** Text before the first newline only lengthens the first piece. */
  lemma {:induction false} PiecesPrefix(a: string, b: string)
    requires '\n' !in a
    ensures Pieces(a + b) == [a + Pieces(b)[0]] + Pieces(b)[1..]
  {
    var i := FirstNewline(b);
    var more := if i < |b| then Pieces(b[i + 1..]) else [];
    FirstNewlineAfter(a, b);
    Prepended(a, b, i);
    PiecesBy(b, i, more);
    PiecesBy(a + b, |a| + i, more);
    LongerFirst(Pieces(a + b), Pieces(b), a, b[..i], more);
  }

  /** Everything in a record before its message. */
  function Header(c: Call): string {
    c.ts + " " + Keyword(c.level) + " " + c.file + ":" + c.func + ":" + DecimalInt(c.line) + " "
  }

  lemma HeaderHasNoNewline(c: Call)
    requires IsTimestamp(c.ts) && '\n' !in c.file && '\n' !in c.func
    ensures '\n' !in Header(c)
  {
    assert '\n' !in DecimalInt(c.line);
    assert '\n' !in Keyword(c.level) by {
      match c.level
      case DEBUG =>
      case WARNING =>
      case ERROR =>
      case CRITICAL =>
    }
  }

  /** The first line of a record is itself the record of the message's first line. */
  lemma {:induction false} FirstLineIsRecord(c: Call)
    requires IsTimestamp(c.ts) && '\n' !in c.file && '\n' !in c.func
    ensures Pieces(Record(c)) == [Record(c.(message := Pieces(c.message)[0]))] + Pieces(c.message)[1..]
  {
    HeaderHasNoNewline(c);
    assert Record(c) == Header(c) + c.message;
    PiecesPrefix(Header(c), c.message);
    assert Record(c.(message := Pieces(c.message)[0])) == Header(c) + Pieces(c.message)[0];
  }

  lemma FirstPieceIsPrefix(s: string)
    ensures IsPrefix(Pieces(s)[0], s)
  {
    assert s[..|s|] == s;
  }

  lemma {:induction false} CutPrefix(s: string, n: nat, i: nat)
    requires i < n <= |s|
    ensures s[..n][..i] == s[..i] && s[..n][i + 1..] == s[i + 1..][..n - i - 1]
  {
  }

  lemma {:induction false} FirstNewlineOfPrefix(s: string, n: nat)
    requires n <= |s|
    ensures FirstNewline(s[..n]) == if FirstNewline(s) < n then FirstNewline(s) else n
  {
    var i := FirstNewline(s);
    var m := if i < n then i else n;
    assert forall k | 0 <= k < m :: s[k] == s[..i][k];
    NewlineAt(s[..n], m);
  }

  /** Each piece is at most shortened, and trailing ones may be missing. */
  predicate Shortened(cut: seq<string>, whole: seq<string>) {
    |cut| <= |whole| && forall k | 0 <= k < |cut| :: IsPrefix(cut[k], whole[k])
  }

  lemma {:induction false} ShortenedCons(x: string, cut: seq<string>, whole: seq<string>)
    requires Shortened(cut, whole)
    ensures Shortened([x] + cut, [x] + whole)
  {
    assert x[..|x|] == x;
  }

  lemma {:induction false} ShortenedFirst(s: string, n: nat, i: nat, more: seq<string>)
    requires n <= i <= |s|
    ensures Shortened([s[..n]], [s[..i]] + more)
  {
    assert s[..i][..n] == s[..n];
  }

  lemma {:induction false} PiecesFirst(s: string) returns (more: seq<string>)
    ensures Pieces(s) == [s[..FirstNewline(s)]] + more
  {
    var i := FirstNewline(s);
    if i == |s| {
      PiecesWhole(s);
      assert s[..i] == s;
      more := [];
    } else {
      PiecesAt(s, i);
      more := Pieces(s[i + 1..]);
    }
  }

  /** Cutting a text cuts its pieces. */
  lemma {:induction false} PiecesOfPrefix(s: string, n: nat)
    requires n <= |s|
    ensures Shortened(Pieces(s[..n]), Pieces(s))
    decreases |s|
  {
    var i := FirstNewline(s);
    FirstNewlineOfPrefix(s, n);
    if i < n {
      PiecesCutLater(s, n, i);
      PiecesOfPrefix(s[i + 1..], n - i - 1);
      ShortenedCons(s[..i], Pieces(s[i + 1..][..n - i - 1]), Pieces(s[i + 1..]));
    } else {
      PiecesWhole(s[..n]);
      var more := PiecesFirst(s);
      ShortenedFirst(s, n, i, more);
    }
  }

  lemma {:induction false} PiecesCutLater(s: string, n: nat, i: nat)
    requires i < n <= |s| && FirstNewline(s) == i && FirstNewline(s[..n]) == i
    ensures Pieces(s) == [s[..i]] + Pieces(s[i + 1..])
    ensures Pieces(s[..n]) == [s[..i]] + Pieces(s[i + 1..][..n - i - 1])
  {
    CutPrefix(s, n, i);
    PiecesAt(s, i);
    PiecesAt(s[..n], i);
  }

  /** What is received of a text begins with what is received of its first line. */
  lemma {:induction false} ReceivedPieces(s: string)
    ensures Pieces(Received(s))[0] == Received(Pieces(s)[0])
    ensures Shortened(Pieces(Received(s)), Pieces(s))
  {
    var n := if |s| <= 1024 then |s| else 1024;
    var i := FirstNewline(s);
    assert Received(s) == s[..n];
    PiecesOfPrefix(s, n);
    FirstNewlineOfPrefix(s, n);
    assert Pieces(s)[0] == s[..i];
    if i < n {
      assert s[..n][..i] == s[..i];
    } else {
      assert s[..i][..n] == s[..n];
    }
  }

  lemma PrefixNeverRaises(a: string, s: string)
    requires IsPrefix(a, s)
    ensures Rank(Classify(a)) <= Rank(Classify(s))
  {
    forall key | Contains(a, key) ensures Contains(s, key) {
      ContainsPrefix(s, |a|, key);
    }
  }

  lemma PrefixHasNoLevel(a: string, s: string)
    requires IsPrefix(a, s) && Classify(s) == DEBUG
    ensures Classify(a) == DEBUG
  {
    PrefixNeverRaises(a, s);
  }

  /** The lines received of a plain record: the first has the logged level, the rest have none. */
  lemma PlainLines(c: Call)
    requires Plain(c)
    ensures Classify(Pieces(Received(Record(c)))[0]) == c.level
    ensures forall i | 0 < i < |Pieces(Received(Record(c)))| :: Classify(Pieces(Received(Record(c)))[i]) == DEBUG
  {
    FirstLineIsRecord(c);
    ReceivedPieces(Record(c));
    FirstLineLevel(c);
    var whole, cut := Pieces(Record(c)), Pieces(Received(Record(c)));
    forall i | 0 < i < |cut| ensures Classify(cut[i]) == DEBUG {
      assert whole[i] == Pieces(c.message)[i];
      PrefixHasNoLevel(cut[i], whole[i]);
    }
  }

  lemma FirstLineLevel(c: Call)
    requires Plain(c)
    ensures Classify(Received(Record(c.(message := Pieces(c.message)[0])))) == c.level
  {
    var first := c.(message := Pieces(c.message)[0]);
    FirstPieceIsPrefix(c.message);
    PrefixNeverRaises(first.message, c.message);
    LevelSurvivesTruncation(first);
  }

  lemma {:induction false} FilterFirst(p: string -> bool, lines: seq<string>)
    requires |lines| >= 1 && forall i | 0 < i < |lines| :: !p(lines[i])
    ensures Filter(p, lines) == if p(lines[0]) then [lines[0]] else []
  {
    FilterNone(p, lines[1..]);
  }

  lemma {:induction false} FilterCons(p: string -> bool, before: seq<string>, x: string, rest: seq<string>)
    ensures before + Filter(p, [x] + rest) == before + (if p(x) then [x] else []) + Filter(p, rest)
  {
    assert ([x] + rest)[1..] == rest;
  }

  /** The part of a dump that one plain record contributes. */
  lemma {:induction false} EntryShown(c: Call, exact: bool, l: Level)
    requires Plain(c) && l != DEBUG
    ensures Filter(Shown(exact, l), EntryLines(Received(Record(c)))) ==
      if (if exact then c.level == l else Rank(c.level) >= Rank(l)) then [Pieces(Received(Record(c)))[0]] else []
  {
    PlainLines(c);
    NoCapitalsNoLevel("");
    FilterFirst(Shown(exact, l), EntryLines(Received(Record(c))));
  }

  /** The round trip: over lossless in-order delivery, for any sequence of plain calls under
      any sequence of logger levels, the dump at a level above DEBUG prints exactly the first
      lines, as received, of the calls that the logger let through and whose level passes the server's
      filter (at least the level, or exactly the level), in order. */
  lemma {:induction false} DumpRecoversLog(events: seq<Event>, exact: bool, l: Level)
    requires forall e | e in events :: Plain(e.call)
    requires l != DEBUG
    ensures Filter(Shown(exact, l), Lines(FileOf(Delivered(SentRecords(events))))) == ExpectedLines(events, exact, l)
  {
    FileReadsBack(Delivered(SentRecords(events)));
    LinesAsExpected(events, exact, l);
  }

  /** At DEBUG the cumulative dump prints every line of the file, for any records at all: the
      records' own lines and the empty line that follows each of them. */
  lemma DumpAtDebug(records: seq<string>)
    ensures Filter(Shown(false, DEBUG), Lines(FileOf(records))) == AllLines(records)
  {
    FileReadsBack(records);
    FilterAll(Shown(false, DEBUG), AllLines(records));
  }

  /** What one more call adds to what the server has received. */
  function ReceivedBy(e: Event): seq<string> {
    if Sends(e.call, e.logLevel) then [Received(Record(e.call))] else []
  }

  lemma {:induction false} DeliveredSnoc(records: seq<string>, e: Event)
    ensures Delivered(records + SentBy(e)) == Delivered(records) + ReceivedBy(e)
  {
    if SentBy(e) == [] {
      assert records + SentBy(e) == records;
    } else {
      assert (records + SentBy(e))[..|records|] == records;
    }
  }

  lemma {:induction false} AllLinesConcat(records: seq<string>, more: seq<string>)
    requires |more| <= 1
    ensures AllLines(records + more) == AllLines(records) + (if more == [] then [] else EntryLines(more[0]))
  {
    if more == [] {
      assert records + more == records;
    } else {
      assert (records + more)[..|records|] == records;
    }
  }

  lemma ContributionShown(e: Event, exact: bool, l: Level)
    requires Plain(e.call) && l != DEBUG
    ensures |ReceivedBy(e)| <= 1
    ensures Filter(Shown(exact, l), if ReceivedBy(e) == [] then [] else EntryLines(ReceivedBy(e)[0])) == ExpectedOf(e, exact, l)
  {
    EntryShown(e.call, exact, l);
  }

  lemma {:induction false} LinesAsExpected(events: seq<Event>, exact: bool, l: Level)
    requires forall e | e in events :: Plain(e.call)
    requires l != DEBUG
    ensures Filter(Shown(exact, l), AllLines(Delivered(SentRecords(events)))) == ExpectedLines(events, exact, l)
  {
    if events != [] {
      var front, e := events[..|events| - 1], events[|events| - 1];
      var before := Delivered(SentRecords(front));
      LinesAsExpected(front, exact, l);
      ContributionShown(e, exact, l);
      DeliveredSnoc(SentRecords(front), e);
      AllLinesConcat(before, ReceivedBy(e));
      FilterConcat(Shown(exact, l), AllLines(before), if ReceivedBy(e) == [] then [] else EntryLines(ReceivedBy(e)[0]));
    }
  }

  /** A single-line record is shown whole. */
  lemma SingleLineShownWhole(c: Call)
    requires IsTimestamp(c.ts) && '\n' !in c.file && '\n' !in c.func && '\n' !in c.message
    ensures Pieces(Record(c)) == [Record(c)]
  {
    FirstLineIsRecord(c);
    assert c.message[..|c.message|] == c.message;
    assert FirstNewline(c.message) == |c.message|;
    assert c.(message := c.message) == c;
  }

  /** The calls, made while the logger's level is n. */
  function AtLevel(calls: seq<Call>, n: int): (events: seq<Event>)
    ensures |events| == |calls|
  {
    if calls == [] then [] else AtLevel(calls[..|calls| - 1], n) + [Event(calls[|calls| - 1], n)]
  }

  lemma {:induction false} AtLevelCalls(calls: seq<Call>, n: int)
    requires forall c | c in calls :: Plain(c)
    ensures forall e | e in AtLevel(calls, n) :: Plain(e.call)
  {
    if calls != [] {
      assert calls[|calls| - 1] in calls;
      AtLevelCalls(calls[..|calls| - 1], n);
    }
  }

  /** What a cumulative dump at level l prints when the calls were made at logger level n. */
  function CumulativeDump(calls: seq<Call>, n: int, l: Level): seq<string> {
    Filter(Shown(false, l), Lines(FileOf(Delivered(SentRecords(AtLevel(calls, n))))))
  }

  lemma {:induction false} ExpectedCompose(calls: seq<Call>, k: Level, l: Level)
    ensures ExpectedLines(AtLevel(calls, Rank(k)), false, l) == ExpectedLines(AtLevel(calls, 0), false, Max(k, l))
  {
    if calls != [] {
      var front, c := calls[..|calls| - 1], calls[|calls| - 1];
      ExpectedCompose(front, k, l);
      var a, b := AtLevel(calls, Rank(k)), AtLevel(calls, 0);
      assert a[..|front|] == AtLevel(front, Rank(k)) && b[..|front|] == AtLevel(front, 0);
      assert ExpectedOf(Event(c, Rank(k)), false, l) == ExpectedOf(Event(c, 0), false, Max(k, l));
    }
  }

  lemma DumpAsExpected(calls: seq<Call>, n: int, l: Level)
    requires l != DEBUG && forall c | c in calls :: Plain(c)
    ensures CumulativeDump(calls, n, l) == ExpectedLines(AtLevel(calls, n), false, l)
  {
    AtLevelCalls(calls, n);
    DumpRecoversLog(AtLevel(calls, n), false, l);
  }

  lemma {:induction false} NothingSentNothingExpected(events: seq<Event>, l: Level)
    requires SentRecords(events) == []
    ensures ExpectedLines(events, false, l) == []
  {
    if events != [] {
      NothingSentNothingExpected(events[..|events| - 1], l);
    }
  }

  lemma DeliveredSize(records: seq<string>)
    ensures |Delivered(records)| == |records|
  {
  }

  /** The blank line after the last record is printed at DEBUG, and at no other level. */
  lemma {:induction false} BlankLineShown(calls: seq<Call>, n: int, l: Level)
    ensures "" in CumulativeDump(calls, n, DEBUG) <==> SentRecords(AtLevel(calls, n)) != []
    ensures SentRecords(AtLevel(calls, n)) == [] ==> CumulativeDump(calls, n, DEBUG) == []
    ensures l != DEBUG ==> "" !in CumulativeDump(calls, n, l)
  {
    var records := Delivered(SentRecords(AtLevel(calls, n)));
    DeliveredSize(SentRecords(AtLevel(calls, n)));
    DumpAtDebug(records);
    if records != [] {
      var lines := EntryLines(records[|records| - 1]);
      assert lines[|lines| - 1] == "";
    }
    NoCapitalsNoLevel("");
    FilterMembers(Shown(false, l), Lines(FileOf(records)));
  }

  /** Logger and server filters compose to the higher of the two levels: what the dump prints
      is what it would print if the logger filtered nothing and the server at that level. This
      holds except when the logger filters, the server shows everything, and something was
      sent: then the empty lines are printed as well. */
  lemma FiltersCompose(calls: seq<Call>, k: Level, l: Level)
    requires forall c | c in calls :: Plain(c)
    ensures CumulativeDump(calls, Rank(k), l) == CumulativeDump(calls, 0, Max(k, l))
      <==> l != DEBUG || k == DEBUG || SentRecords(AtLevel(calls, Rank(k))) == []
  {
    if l != DEBUG {
      DumpAsExpected(calls, Rank(k), l);
      DumpAsExpected(calls, 0, Max(k, l));
      ExpectedCompose(calls, k, l);
    } else if k != DEBUG {
      BlankLineShown(calls, Rank(k), k);
      BlankLineShown(calls, 0, k);
      if SentRecords(AtLevel(calls, Rank(k))) == [] {
        DumpAsExpected(calls, 0, k);
        ExpectedCompose(calls, k, k);
        NothingSentNothingExpected(AtLevel(calls, Rank(k)), k);
      }
    }
  }

  // ---------------------------------------------------------------- level commands

  predicate IsSpace(c: char) {
    c == ' ' || c == '\t' || c == '\n' || c == '\r' || c == 11 as char || c == 12 as char
  }

  function SkipSpaces(s: string): string {
    if s != "" && IsSpace(s[0]) then SkipSpaces(s[1..]) else s
  }

  /** The longest prefix of digits. */
  function DigitPrefix(s: string): (r: string)
    ensures AllDigits(r)
  {
    if s != "" && IsDigit(s[0]) then [s[0]] + DigitPrefix(s[1..]) else ""
  }

  /** std::stoi: None for its two exceptions, no digits and out of the range of int. */
  function Stoi(s: string): (r: Option<int>)
    ensures r.Some? ==> -0x8000_0000 <= r.value < 0x8000_0000
  {
    var t := SkipSpaces(s);
    var negative := t != "" && t[0] == '-';
    var digits := DigitPrefix(if t != "" && (t[0] == '-' || t[0] == '+') then t[1..] else t);
    var n := if negative then -(Value(digits) as int) else Value(digits);
    if digits == "" || !(-0x8000_0000 <= n < 0x8000_0000) then None else Some(n)
  }

  const COMMAND := "Set Log Level="

  /** What follows the first '=' of a text. */
  function AfterEquals(s: string): string {
    if s == "" then "" else if s[0] == '=' then s[1..] else AfterEquals(s[1..])
  }

  /** The level that a datagram asks for, if the listener accepts it. */
  function Requested(datagram: string): (r: Option<int>)
    ensures r.Some? ==> 0 <= r.value <= 3
  {
    if !Contains(datagram, COMMAND) then None
    else
      match Stoi(AfterEquals(datagram))
      case Some(n) => if 0 <= n <= 3 then Some(n) else None
      case None => None
  }

  /** The command the server sends for a level. */
  function Command(level: nat): string {
    COMMAND + Decimal(level)
  }

  lemma {:induction false} DigitPrefixOf(s: string)
    requires AllDigits(s)
    ensures DigitPrefix(s) == s
  {
    if s != "" {
      assert s[0] in s;
      DigitPrefixOf(s[1..]);
    }
  }

  /** stoi undoes to_string on every number an int can hold. */
  lemma StoiOfDecimal(n: nat)
    requires n < 0x8000_0000
    ensures Stoi(Decimal(n)) == Some(n)
  {
    var s := Decimal(n);
    assert s[0] in s;
    assert SkipSpaces(s) == s;
    DigitPrefixOf(s);
    ValueOfDecimal(n);
  }

  lemma {:induction false} SkipSpacesOf(spaces: string, s: string)
    requires forall c | c in spaces :: IsSpace(c)
    requires s == "" || !IsSpace(s[0])
    ensures SkipSpaces(spaces + s) == s
  {
    if spaces == "" {
      assert spaces + s == s;
    } else {
      assert spaces[0] in spaces;
      assert (spaces + s)[1..] == spaces[1..] + s;
      SkipSpacesOf(spaces[1..], s);
    }
  }

  lemma {:induction false} DigitPrefixStops(digits: string, tail: string)
    requires AllDigits(digits) && (tail == "" || !IsDigit(tail[0]))
    ensures DigitPrefix(digits + tail) == digits
  {
    if digits == "" {
      assert digits + tail == tail;
    } else {
      assert digits[0] in digits;
      assert (digits + tail)[1..] == digits[1..] + tail;
      DigitPrefixStops(digits[1..], tail);
    }
  }

  /** The number read after the spaces have been skipped. */
  lemma {:induction false} StoiBy(s: string, t: string, negative: bool, body: string, digits: string)
    requires SkipSpaces(s) == t && negative == (t != "" && t[0] == '-')
    requires body == (if t != "" && (t[0] == '-' || t[0] == '+') then t[1..] else t)
    requires DigitPrefix(body) == digits && AllDigits(digits)
    ensures digits == "" ==> Stoi(s) == None
    ensures digits != "" ==> Stoi(s) == Fit(if negative then -(Value(digits) as int) else Value(digits))
  {
  }

  /** Does a number fit into an int? */
  function Fit(n: int): Option<int> {
    if -0x8000_0000 <= n < 0x8000_0000 then Some(n) else None
  }

  lemma {:induction false} SignedText(sign: string, rest: string)
    requires sign == "+" || sign == "-"
    ensures (sign + rest)[0] == sign[0] && (sign + rest)[1..] == rest
  {
  }

  /** What stoi reads: spaces, a sign, a number, and anything after it; None when the number
      does not fit into an int. */
  lemma {:induction false} StoiReads(spaces: string, sign: string, n: nat, tail: string)
    requires forall c | c in spaces :: IsSpace(c)
    requires (sign == "" || sign == "+" || sign == "-") && (tail == "" || !IsDigit(tail[0]))
    ensures var text := Decimal(n) + tail;
      Stoi(spaces + (if sign == "" then text else sign + text)) == Fit(if sign == "-" then -(n as int) else n)
  {
    var digits := Decimal(n);
    var body := digits + tail;
    assert digits[0] in digits && body[0] == digits[0];
    DigitPrefixStops(digits, tail);
    ValueOfDecimal(n);
    if sign == "" {
      SkipSpacesOf(spaces, body);
      StoiBy(spaces + body, body, false, body, digits);
    } else {
      SignedText(sign, body);
      SkipSpacesOf(spaces, sign + body);
      StoiBy(spaces + (sign + body), sign + body, sign == "-", body, digits);
    }
  }

  /** Without a digit after the spaces and the sign there is no number. */
  lemma {:induction false} StoiNeedsDigits(spaces: string, sign: string, tail: string)
    requires forall c | c in spaces :: IsSpace(c)
    requires (sign == "+" || sign == "-") && (tail == "" || !IsDigit(tail[0]))
    ensures Stoi(spaces + (sign + tail)) == None
  {
    SignedText(sign, tail);
    SkipSpacesOf(spaces, sign + tail);
    DigitPrefixStops("", tail);
    assert "" + tail == tail;
    StoiBy(spaces + (sign + tail), sign + tail, sign == "-", tail, "");
  }

  /** Which datagrams are accepted: those that contain the command; the number is read after
      the first '=' of the datagram, and must be a level. */
  lemma CommandUnderstood(before: string, text: string)
    requires '=' !in before
    ensures Requested(before + "Set Log Level=" + text) ==
      match Stoi(text) case Some(n) => (if 0 <= n <= 3 then Some(n) else None) case None => None
  {
    var s := before + "Set Log Level=" + text;
    assert OccursAt(s, COMMAND, |before|) by { assert s[|before|..|before| + |COMMAND|] == COMMAND; }
    assert s == (before + "Set Log Level") + "=" + text;
    AfterFirstEquals(before + "Set Log Level", text);
  }

  lemma CommandNeeded(datagram: string)
    requires !Contains(datagram, "Set Log Level=")
    ensures Requested(datagram) == None
  {
  }

  lemma {:induction false} AfterFirstEquals(a: string, b: string)
    requires '=' !in a
    ensures AfterEquals(a + "=" + b) == b
  {
    var s := a + "=" + b;
    if a == "" {
      assert s[1..] == b;
    } else {
      assert s[1..] == a[1..] + "=" + b;
      AfterFirstEquals(a[1..], b);
    }
  }

  /** The server's command is understood: the listener accepts it exactly when it carries a
      level, and then takes the level it was built from. */
  lemma CommandRoundTrip(level: nat)
    requires level < 0x8000_0000
    ensures Requested(Command(level)) == if level <= 3 then Some(level) else None
  {
    var s := Command(level);
    assert OccursAt(s, COMMAND, 0) by { assert s[0..|COMMAND|] == COMMAND; }
    assert s == "Set Log Level" + "=" + Decimal(level);
    AfterFirstEquals("Set Log Level", Decimal(level));
    StoiOfDecimal(level);
  }

  /** The logger's level after a sequence of datagrams. */
  function LevelAfter(initial: int, datagrams: seq<string>): int {
    if datagrams == [] then initial
    else
      match Requested(datagrams[|datagrams| - 1])
      case Some(n) => n
      case None => LevelAfter(initial, datagrams[..|datagrams| - 1])
  }

  /** Datagram i is the last one that was accepted. */
  predicate LastAccepted(datagrams: seq<string>, i: nat) {
    i < |datagrams| && Requested(datagrams[i]).Some? && forall j | i < j < |datagrams| :: Requested(datagrams[j]) == None
  }

  /** Whatever arrives, the level is that of the last accepted command, and the initial one
      when there was none. */
  lemma {:induction false} LevelIsLastAccepted(initial: int, datagrams: seq<string>, i: nat)
    ensures LastAccepted(datagrams, i) ==> LevelAfter(initial, datagrams) == Requested(datagrams[i]).value
    ensures (forall d | d in datagrams :: Requested(d) == None) ==> LevelAfter(initial, datagrams) == initial
  {
    if datagrams != [] {
      var front, last := datagrams[..|datagrams| - 1], datagrams[|datagrams| - 1];
      assert last in datagrams;
      LevelIsLastAccepted(initial, front, i);
      if LastAccepted(datagrams, i) && i < |front| {
        assert LastAccepted(front, i);
      }
    }
  }

  /** Hence it never leaves DEBUG..CRITICAL. */
  lemma {:induction false} LevelStaysInRange(initial: int, datagrams: seq<string>)
    requires 0 <= initial <= 3
    ensures 0 <= LevelAfter(initial, datagrams) <= 3
  {
    if datagrams != [] {
      LevelStaysInRange(initial, datagrams[..|datagrams| - 1]);
    }
  }

  // ------------------------------------------------------------------ the programs

  /** The first of the lines of a text. */
  lemma {:induction false} FirstLine(text: string, line: string, after: string)
    requires text != "" && |line| <= |text| && text[..|line|] == line && '\n' !in line
    requires if |line| < |text| then text[|line|] == '\n' && text[|line| + 1..] == after else after == ""
    ensures Lines(text) == [line] + Lines(after)
  {
    NewlineAt(text, |line|);
    assert text[..|text|] == text;
  }

  lemma {:induction false} Within(s: string, pos: nat, end: nat, next: nat)
    requires pos <= end <= |s|
    requires if end < |s| then next == end + 1 else next == end
    ensures var text, line := s[pos..], s[pos..end];
      && |line| <= |text| && text[..|line|] == line
      && (|line| < |text| <==> end < |s|)
      && (end < |s| ==> text[|line|] == s[end] && text[|line| + 1..] == s[next..])
      && (end == |s| ==> s[next..] == "")
  {
  }

  /** The lines from pos on, when the line there ends at `end` and the next starts at `next`. */
  lemma {:induction false} NextLine(s: string, pos: nat, end: nat, next: nat)
    requires pos <= end <= |s| && pos < |s| && '\n' !in s[pos..end]
    requires if end < |s| then s[end] == '\n' && next == end + 1 else next == end
    ensures Lines(s[pos..]) == [s[pos..end]] + Lines(s[next..])
  {
    Within(s, pos, end, next);
    FirstLine(s[pos..], s[pos..end], s[next..]);
  }

  /** Logger.cpp: the client side. `outbox` is what has been sent to the server. */
  class Logger {
    var logLevel: int
    var clientFd: int
    var outbox: seq<string>

    /** `clientFd` is -1 when InitializeLog could not bind its socket. */
    constructor (clientFd: int)
      ensures logLevel == 0 && outbox == [] && this.clientFd == clientFd
    {
      logLevel, outbox := 0, [];
      this.clientFd := clientFd;
    }

    method SetLogLevel(level: Level)
      modifies `logLevel
      ensures logLevel == Rank(level)
    {
      logLevel := Rank(level);
    }

    /** One received datagram in listen_for_commands. */
    method Listen(datagram: string)
      modifies `logLevel
      ensures logLevel == LevelAfter(old(logLevel), [datagram])
      ensures 0 <= old(logLevel) <= 3 ==> 0 <= logLevel <= 3
    {
      assert [datagram][..0] == [];
      if Contains(datagram, COMMAND) {
        var newLevel := Stoi(AfterEquals(datagram));
        if newLevel.Some? && newLevel.value >= 0 && newLevel.value <= 3 {
          logLevel := newLevel.value;
        }
      }
    }

    method Log(call: Call)
      modifies `outbox
      ensures outbox == old(outbox) + (if clientFd == -1 then [] else SentRecords([Event(call, logLevel)]))
    {
      assert [Event(call, logLevel)][..0] == [];
      if Rank(call.level) < logLevel {
        return;
      }
      var levelText := match call.level
        case DEBUG => "DEBUG"
        case WARNING => "WARNING"
        case ERROR => "ERROR"
        case CRITICAL => "CRITICAL";
      var record := call.ts + " " + levelText + " " + call.file + ":" + call.func + ":" + DecimalInt(call.line) + " " + call.message;
      if clientFd != -1 {
        outbox := outbox + [record];
      }
    }
  }

  /** What a level choice in the menu leads to. */
  datatype Outcome = Sent(command: string) | Invalid | Ignored | Terminated

  /** LogServer.cpp. `file` is the content of server_log.txt. */
  class Server {
    var file: string
    var currentLevel: Level
    /** The records received so far. */
    ghost var records: seq<string>

    ghost predicate Valid()
      reads this
    {
      file == FileOf(records)
    }

    constructor ()
      ensures Valid() && records == [] && currentLevel == DEBUG
    {
      file, currentLevel, records := "", DEBUG, [];
    }

    /** receive_logs: one datagram; empty ones are ignored. */
    method ReceiveLog(datagram: string)
      requires Valid()
      modifies `file, `records
      ensures Valid()
      ensures records == old(records) + (if datagram == "" then [] else [Received(datagram)])
      ensures 0 < |datagram| <= 1024 ==> file == old(file) + datagram + "\n" + "\n"
      ensures |datagram| > 1024 ==> file == old(file) + datagram[..1024] + "\n" + "\n"
    {
      if |datagram| > 0 {
        var message := if |datagram| <= 1024 then datagram else datagram[..1024];
        file := file + message + "\n" + "\n";
        records := records + [message];
        assert records[..|records| - 1] == old(records);
        assert old(file) + Entry(message) == file;
      }
    }

    /** getline: the line that starts at pos, and where the next one starts. */
    method GetLine(pos: nat) returns (line: string, next: nat)
      requires pos < |file|
      ensures pos < next <= |file|
      ensures Lines(file[pos..]) == [line] + Lines(file[next..])
    {
      var end := pos;
      while end < |file| && file[end] != '\n'
        invariant pos <= end <= |file|
        invariant '\n' !in file[pos..end]
      {
        end := end + 1;
      }
      line := file[pos..end];
      next := if end < |file| then end + 1 else end;
      NextLine(file, pos, end, next);
    }

    /** The branches of the dump on one line. */
    method PrintIfShown(before: seq<string>, exact: bool, line: string) returns (printed: seq<string>)
      ensures printed == before + (if Shown(exact, currentLevel)(line) then [line] else [])
    {
      printed := before;
      var lineLevel := Classify(line);
      if exact {
        if lineLevel == currentLevel {
          printed := printed + [line];
        }
      } else {
        if Rank(lineLevel) >= Rank(currentLevel) {
          printed := printed + [line];
        }
      }
    }

    /** dump_log_file: getline over the file, printing the lines that pass the filter. */
    method Dump(exact: bool) returns (printed: seq<string>)
      ensures printed == Filter(Shown(exact, currentLevel), Lines(file))
      ensures var l := currentLevel;
        && (exact ==> printed == Filter((line: string) => Classify(line) == l, Lines(file)))
        && (!exact ==> printed == Filter((line: string) => Rank(Classify(line)) >= Rank(l), Lines(file)))
      ensures exact ==>
        forall x :: multiset(printed)[x] == (if Classify(x) == currentLevel then multiset(Lines(file))[x] else 0)
      ensures !exact ==>
        forall x :: multiset(printed)[x] == (if Rank(Classify(x)) >= Rank(currentLevel) then multiset(Lines(file))[x] else 0)
    {
      ShownMeans(exact, currentLevel, Lines(file));
      printed := [];
      ghost var p := Shown(exact, currentLevel);
      ghost var left := Lines(file);
      ghost var goal := Filter(p, left);
      var pos := 0;
      assert file[0..] == file;
      while pos < |file|
        invariant 0 <= pos <= |file|
        invariant left == Lines(file[pos..])
        invariant goal == printed + Filter(p, left)
        decreases |file| - pos
      {
        var line, next := GetLine(pos);
        left := Lines(file[next..]);
        FilterCons(p, printed, line, left);
        printed := PrintIfShown(printed, exact, line);
        pos := next;
      }
      assert left == [];
    }

    /** Menu choice 1: set the server's own filter and build the command for the logger. The
        exceptions of stoi are not caught: they end the server. */
    method ChooseLevel(input: string) returns (outcome: Outcome)
      modifies `currentLevel
      ensures outcome.Ignored? <==> input == ""
      ensures outcome.Terminated? <==> input != "" && Stoi(input).None?
      ensures outcome.Sent? <==> input != "" && Stoi(input).Some? && 0 <= Stoi(input).value <= 3
      ensures outcome.Sent? ==> Rank(currentLevel) == Stoi(input).value
      ensures outcome.Sent? ==> Requested(outcome.command) == Some(Rank(currentLevel))
      ensures !outcome.Sent? ==> currentLevel == old(currentLevel)
    {
      if input == "" {
        return Ignored;
      }
      var level := Stoi(input);
      if level.None? {
        return Terminated;
      }
      if level.value < 0 || level.value > 3 {
        return Invalid;
      }
      currentLevel := if level.value == 0 then DEBUG else if level.value == 1 then WARNING
        else if level.value == 2 then ERROR else CRITICAL;
      CommandRoundTrip(level.value);
      return Sent(COMMAND + Decimal(level.value));
    }
  }

  /** The calls, each with the logger's level at the time. */
  function EventsOf(calls: seq<Call>, levels: seq<Level>): (events: seq<Event>)
    requires |calls| == |levels|
    ensures |events| == |calls|
  {
    seq(|calls|, i requires 0 <= i < |calls| => Event(calls[i], Rank(levels[i])))
  }

  lemma {:induction false} EventsSnoc(calls: seq<Call>, levels: seq<Level>, n: nat)
    requires |calls| == |levels| && n < |calls|
    ensures var events := EventsOf(calls, levels);
      SentRecords(events[..n + 1]) == SentRecords(events[..n]) + SentRecords([Event(calls[n], Rank(levels[n]))])
  {
    var events := EventsOf(calls, levels);
    assert events[..n + 1][..n] == events[..n] && events[..n + 1][n] == events[n];
    assert [events[n]][..0] == [];
  }

  lemma RecordIsNotEmpty(c: Call)
    ensures Record(c) != ""
  {
    assert Record(c) == Header(c) + c.message;
    assert |Header(c)| >= 1;
  }

  /** No record that Log() builds is empty. */
  lemma {:induction false} RecordsAreNotEmpty(events: seq<Event>)
    ensures forall r | r in SentRecords(events) :: r != ""
  {
    if events != [] {
      RecordsAreNotEmpty(events[..|events| - 1]);
      RecordIsNotEmpty(events[|events| - 1].call);
    }
  }

  lemma EventsArePlain(calls: seq<Call>, levels: seq<Level>)
    requires |calls| == |levels| && forall c | c in calls :: Plain(c)
    ensures forall e | e in EventsOf(calls, levels) :: Plain(e.call)
  {
    forall e | e in EventsOf(calls, levels) ensures Plain(e.call) {
      var i :| 0 <= i < |calls| && EventsOf(calls, levels)[i] == e;
      assert e.call == calls[i];
    }
  }

  /** Sends the calls, changing the logger's level before each of them. */
  method LogAll(logger: Logger, calls: seq<Call>, levels: seq<Level>)
    requires |calls| == |levels| && logger.clientFd != -1 && logger.outbox == []
    modifies logger
    ensures logger.clientFd == old(logger.clientFd)
    ensures logger.outbox == SentRecords(EventsOf(calls, levels))
  {
    ghost var events := EventsOf(calls, levels);
    for n := 0 to |calls|
      invariant logger.clientFd == old(logger.clientFd)
      invariant logger.outbox == SentRecords(events[..n])
    {
      logger.SetLogLevel(levels[n]);
      logger.Log(calls[n]);
      EventsSnoc(calls, levels, n);
    }
    assert events[..|calls|] == events;
  }

  /** Lossless delivery in order. */
  method Deliver(server: Server, outbox: seq<string>)
    requires server.Valid() && server.records == [] && forall r | r in outbox :: r != ""
    modifies server`file, server`records
    ensures server.Valid() && server.records == Delivered(outbox)
  {
    for n := 0 to |outbox|
      invariant server.Valid() && server.records == Delivered(outbox[..n])
    {
      assert outbox[n] in outbox;
      server.ReceiveLog(outbox[n]);
      assert outbox[..n + 1][n] == outbox[n];
      assert outbox[..n + 1][..n] == outbox[..n];
    }
    assert outbox[..|outbox|] == outbox;
  }

  /** The programs together: plain calls are logged under changing levels and delivered, then
      the user chooses a level above DEBUG in the server's menu, and the command is delivered
      too. The dump prints exactly the expected lines, and both sides agree on the level. */
  method LogAndDump(clientFd: int, calls: seq<Call>, levels: seq<Level>, exact: bool, l: Level)
      returns (printed: seq<string>, logger: Logger)
    requires clientFd != -1 && |calls| == |levels| && l != DEBUG
    requires forall c | c in calls :: Plain(c)
    ensures printed == ExpectedLines(EventsOf(calls, levels), exact, l)
    ensures logger.logLevel == Rank(l)
  {
    logger := new Logger(clientFd);
    var server := new Server();
    LogAll(logger, calls, levels);
    RecordsAreNotEmpty(EventsOf(calls, levels));
    Deliver(server, logger.outbox);
    StoiOfDecimal(Rank(l));
    var outcome := server.ChooseLevel(Decimal(Rank(l)));
    assert server.currentLevel == l;
    logger.Listen(outcome.command);
    printed := server.Dump(exact);
    EventsArePlain(calls, levels);
    DumpRecoversLog(EventsOf(calls, levels), exact, l);
  }
}
