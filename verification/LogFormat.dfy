/** Assignment3: the record that Log() prints, the file that log_message() grows, and the
    classification by which dump_log_file() recovers the level of a line. */
module LogFormat {
  import opened Sequences
  import opened Text

  datatype Level = DEBUG | WARNING | ERROR | CRITICAL

  function Rank(l: Level): int {
    match l
    case DEBUG => 0
    case WARNING => 1
    case ERROR => 2
    case CRITICAL => 3
  }

  function Max(a: Level, b: Level): Level {
    if Rank(a) < Rank(b) then b else a
  }

  function Keyword(l: Level): string {
    match l
    case DEBUG => "DEBUG"
    case WARNING => "WARNING"
    case ERROR => "ERROR"
    case CRITICAL => "CRITICAL"
  }

  /** get_log_level_from_string */
  function Classify(line: string): Level {
    if Contains(line, "CRITICAL") then CRITICAL
    else if Contains(line, "ERROR") then ERROR
    else if Contains(line, "WARNING") then WARNING
    else DEBUG
  }

  /** The text of put_time's "%Y-%m-%d %H:%M:%S". */
  predicate IsTimestamp(ts: string) {
    |ts| == 19 && forall c | c in ts :: IsDigit(c) || c == '-' || c == ':' || c == ' '
  }

  /** One call of Log(), with the time at which it is made. */
  datatype Call = Call(ts: string, level: Level, file: string, func: string, line: int, message: string)

  /** The record that Log() sends. */
  function Record(c: Call): string {
    c.ts + " " + Keyword(c.level) + " " + c.file + ":" + c.func + ":" + DecimalInt(c.line) + " " + c.message
  }

  // ------------------------------------------------ the level survives the format

  lemma KeywordsAreFound(l: Level)
    ensures Classify(Keyword(l)) == l
  {
    match l
    case CRITICAL => assert OccursAt("CRITICAL", "CRITICAL", 0);
    case ERROR => assert OccursAt("ERROR", "ERROR", 0);
    case WARNING =>
      assert OccursAt("WARNING", "WARNING", 0);
      ContainsNeedsFirst("WARNING", "CRITICAL");
      ContainsNeedsFirst("WARNING", "ERROR");
    case DEBUG =>
      ContainsNeedsFirst("DEBUG", "CRITICAL");
      ContainsNeedsFirst("DEBUG", "WARNING");
      forall i | 0 <= i <= 5 ensures !OccursAt("DEBUG", "ERROR", i) {
        if i == 0 {
          assert "DEBUG"[0..5][0] == 'D';
        }
      }
  }

  /** Text without capital letters has no level of its own. */
  lemma NoCapitalsNoLevel(s: string)
    requires forall c | c in s :: !('A' <= c <= 'Z')
    ensures Classify(s) == DEBUG
  {
    ContainsNeedsFirst(s, "CRITICAL");
    ContainsNeedsFirst(s, "ERROR");
    ContainsNeedsFirst(s, "WARNING");
  }

  /** Around a separator, the level of a text is the higher of the levels of its parts. */
  lemma ClassifySplit(a: string, sep: char, b: string)
    requires sep == ' ' || sep == ':' || sep == '\n'
    ensures Classify(a + [sep] + b) == Max(Classify(a), Classify(b))
  {
    ContainsSplit(a, sep, b, "CRITICAL");
    ContainsSplit(a, sep, b, "ERROR");
    ContainsSplit(a, sep, b, "WARNING");
  }

  lemma DecimalIntHasNoLevel(n: int)
    ensures Classify(DecimalInt(n)) == DEBUG
  {
    NoCapitalsNoLevel(DecimalInt(n));
  }

  /** The level of the part of a record that the caller controls freely. */
  function PartsLevel(c: Call): Level {
    Max(Max(Classify(c.file), Classify(c.func)), Classify(c.message))
  }

  /** The exact law, for every record: the classifier returns the logged level or the
      highest level named in the file, function or message, whichever is higher. */
  lemma ClassifyRecord(c: Call)
    requires IsTimestamp(c.ts)
    ensures Classify(Record(c)) == Max(c.level, PartsLevel(c))
  {
    var keyword, number := Keyword(c.level), DecimalInt(c.line);
    var r4 := number + [' '] + c.message;
    var r3 := c.func + [':'] + r4;
    var r2 := c.file + [':'] + r3;
    var r1 := keyword + [' '] + r2;
    Associate(c.ts, keyword, c.file, c.func, number, c.message);
    assert Record(c) == c.ts + [' '] + r1;
    ClassifySplit(c.ts, ' ', r1);
    ClassifySplit(keyword, ' ', r2);
    ClassifySplit(c.file, ':', r3);
    ClassifySplit(c.func, ':', r4);
    ClassifySplit(number, ' ', c.message);
    NoCapitalsNoLevel(c.ts);
    DecimalIntHasNoLevel(c.line);
    KeywordsAreFound(c.level);
  }

  lemma Associate(a: string, b: string, c: string, d: string, e: string, f: string)
    ensures a + " " + b + " " + c + ":" + d + ":" + e + " " + f
      == a + [' '] + (b + [' '] + (c + [':'] + (d + [':'] + (e + [' '] + f))))
  {
  }

  /** Hence the logged level is recovered exactly when no part names a higher one. */
  lemma LevelRecoveredIff(c: Call)
    requires IsTimestamp(c.ts)
    ensures Classify(Record(c)) == c.level <==>
      Rank(Classify(c.file)) <= Rank(c.level) && Rank(Classify(c.func)) <= Rank(c.level)
      && Rank(Classify(c.message)) <= Rank(c.level)
  {
    ClassifyRecord(c);
  }

  /** recvfrom() keeps the first 1024 bytes of a datagram. */
  function Received(datagram: string): string {
    if |datagram| <= 1024 then datagram else datagram[..1024]
  }

  lemma TruncationNeverRaises(s: string)
    ensures Rank(Classify(Received(s))) <= Rank(Classify(s))
  {
    forall key | Contains(Received(s), key) ensures Contains(s, key) {
      if |s| > 1024 {
        ContainsPrefix(s, 1024, key);
      }
    }
  }

  lemma KeywordPlace(c: Call)
    requires IsTimestamp(c.ts)
    ensures OccursAt(Record(c), Keyword(c.level), 20)
  {
    var tail := " " + c.file + ":" + c.func + ":" + DecimalInt(c.line) + " " + c.message;
    assert Record(c) == (c.ts + " ") + Keyword(c.level) + tail;
  }

  lemma OccursEarly(text: string, key: string, i: nat)
    requires OccursAt(text, key, i) && i + |key| <= 1024
    ensures Contains(Received(text), key)
  {
    assert Received(text)[i..i + |key|] == text[i..i + |key|];
    assert OccursAt(Received(text), key, i);
  }

  /** Truncation cannot hide the level, however long the message is. */
  lemma LevelSurvivesTruncation(c: Call)
    requires IsTimestamp(c.ts) && Rank(PartsLevel(c)) <= Rank(c.level)
    ensures Classify(Received(Record(c))) == c.level
  {
    ClassifyRecord(c);
    TruncationNeverRaises(Record(c));
    KeywordPlace(c);
    OccursEarly(Record(c), Keyword(c.level), 20);
  }

  // --------------------------------------------------------- the file and its lines

  /** log_message: the record, a newline and an empty line. */
  function Entry(record: string): string {
    record + "\n" + "\n"
  }

  function FileOf(records: seq<string>): string {
    if records == [] then "" else FileOf(records[..|records| - 1]) + Entry(records[|records| - 1])
  }

  function FirstNewline(s: string): (i: nat)
    ensures i <= |s|
    ensures i < |s| ==> s[i] == '\n'
    ensures '\n' !in s[..i]
  {
    if s == "" || s[0] == '\n' then 0
    else
      var i := 1 + FirstNewline(s[1..]);
      assert s[..i] == [s[0]] + s[1..][..i - 1];
      i
  }

  /** The lines that repeated getline() calls deliver. */
  function Lines(s: string): seq<string>
    decreases |s|
  {
    if s == "" then []
    else
      var i := FirstNewline(s);
      if i == |s| then [s] else [s[..i]] + Lines(s[i + 1..])
  }

  /** A record cut at its own newlines: always at least one piece. */
  function Pieces(s: string): (p: seq<string>)
    ensures |p| >= 1
    decreases |s|
  {
    var i := FirstNewline(s);
    if i == |s| then [s] else [s[..i]] + Pieces(s[i + 1..])
  }

  lemma {:induction false} NewlineAt(s: string, i: nat)
    requires i <= |s| && '\n' !in s[..i] && (i < |s| ==> s[i] == '\n')
    ensures FirstNewline(s) == i
  {
    if i > 0 {
      assert s[..i][0] == s[0];
      assert s[1..][..i - 1] == s[..i][1..];
      NewlineAt(s[1..], i - 1);
    }
  }

  lemma {:induction false} NewlineBy(s: string, j: nat)
    requires j < |s| && s[j] == '\n'
    ensures FirstNewline(s) <= j
  {
    if s[0] != '\n' {
      NewlineBy(s[1..], j - 1);
    }
  }

  lemma CutInside(r: string, tail: string, i: nat)
    requires i <= |r|
    ensures (r + tail)[..i] == r[..i]
    ensures i < |r| ==> (r + tail)[i + 1..] == r[i + 1..] + tail
  {
  }

  /** The lines of an entry followed by the rest of the file. */
  lemma LinesOfEntry(r: string, rest: string)
    ensures Lines(r + ("\n" + rest)) == Pieces(r) + Lines(rest)
  {
    assert ("\n" + rest)[1..] == rest;
    LinesUpTo(r, "\n" + rest);
  }

  lemma {:induction false} LinesUpTo(r: string, tail: string)
    requires tail != "" && tail[0] == '\n'
    ensures Lines(r + tail) == Pieces(r) + Lines(tail[1..])
    decreases |r|
  {
    var s, i := r + tail, FirstNewline(r);
    CutInside(r, tail, i);
    NewlineAt(s, i);
    assert Lines(s) == [s[..i]] + Lines(s[i + 1..]);
    if i == |r| {
      assert s[i + 1..] == tail[1..] && s[..i] == r;
    } else {
      var more := r[i + 1..];
      LinesUpTo(more, tail);
      ConcatAssoc([r[..i]], Pieces(more), Lines(tail[1..]));
    }
  }

  /** What dump_log_file reads of one record: its pieces, and the empty line. */
  function EntryLines(record: string): seq<string> {
    Pieces(record) + [""]
  }

  lemma LinesOfOneEntry(record: string)
    ensures Lines(Entry(record)) == EntryLines(record)
  {
    LinesOfEntry(record, "\n");
    assert record + ("\n" + "\n") == Entry(record);
    NewlineAt("\n", 0);
    assert "\n"[1..] == "" && "\n"[..0] == "";
  }

  /** Text that ends with a newline is read independently of what follows it. */
  lemma {:induction false} LinesConcat(a: string, b: string)
    requires a == "" || a[|a| - 1] == '\n'
    ensures Lines(a + b) == Lines(a) + Lines(b)
    decreases |a|
  {
    if a == "" {
      assert a + b == b;
    } else {
      var i := FirstNewline(a);
      NewlineBy(a, |a| - 1);
      CutInside(a, b, i);
      NewlineAt(a + b, i);
      LinesConcat(a[i + 1..], b);
      ConcatAssoc([a[..i]], Lines(a[i + 1..]), Lines(b));
    }
  }

  function AllLines(records: seq<string>): seq<string> {
    if records == [] then [] else AllLines(records[..|records| - 1]) + EntryLines(records[|records| - 1])
  }

  /** Reading the file back gives the lines of every record in order, for any records. */
  lemma {:induction false} FileReadsBack(records: seq<string>)
    ensures Lines(FileOf(records)) == AllLines(records)
    ensures FileOf(records) == "" || FileOf(records)[|FileOf(records)| - 1] == '\n'
  {
    if records != [] {
      var front, last := records[..|records| - 1], records[|records| - 1];
      FileReadsBack(front);
      LinesConcat(FileOf(front), Entry(last));
      LinesOfOneEntry(last);
    }
  }
}
