/** Assignment3: nothing is lost in a log record. Its fields can be read back from the text. */
module RecordFields {
  import opened Text
  import opened LogFormat

  /** A text cut at the first occurrence of a character. */
  function CutAt(s: string, sep: char): (string, string) {
    if s == "" then ("", "")
    else if s[0] == sep then ("", s[1..])
    else
      var (head, tail) := CutAt(s[1..], sep);
      ([s[0]] + head, tail)
  }

  lemma {:induction false} CutAtSeparator(head: string, sep: char, tail: string)
    requires sep !in head
    ensures CutAt(head + ([sep] + tail), sep) == (head, tail)
  {
    var s := head + ([sep] + tail);
    if head == "" {
      assert s == [sep] + tail;
    } else {
      assert s[1..] == head[1..] + ([sep] + tail);
      CutAtSeparator(head[1..], sep, tail);
      assert [head[0]] + head[1..] == head;
    }
  }

  function LevelNamed(name: string): Level {
    if name == "DEBUG" then DEBUG else if name == "WARNING" then WARNING else if name == "ERROR" then ERROR else CRITICAL
  }

  function NumberIn(s: string): int {
    if s != "" && s[0] == '-' && AllDigits(s[1..]) then -(Value(s[1..]) as int)
    else if AllDigits(s) then Value(s) else 0
  }

  /** The fields of a record: 19 characters of time, and then what stands between blank, colon,
      colon and blank. */
  function Parse(text: string): Call {
    if |text| < 20 then Call("", DEBUG, "", "", 0, text)
    else
      var (name, r1) := CutAt(text[20..], ' ');
      var (file, r2) := CutAt(r1, ':');
      var (func, r3) := CutAt(r2, ':');
      var (number, message) := CutAt(r3, ' ');
      Call(text[..19], LevelNamed(name), file, func, NumberIn(number), message)
  }

  lemma NumberOf(n: int)
    ensures NumberIn(DecimalInt(n)) == n && ' ' !in DecimalInt(n)
  {
    var digits := Decimal(if n < 0 then -n else n);
    ValueOfDecimal(if n < 0 then -n else n);
    assert digits[0] in digits;
    if n < 0 {
      assert ("-" + digits)[1..] == digits;
    }
  }

  lemma NameOf(l: Level)
    ensures LevelNamed(Keyword(l)) == l && ' ' !in Keyword(l)
  {
    match l
    case DEBUG =>
    case WARNING =>
    case ERROR =>
    case CRITICAL =>
  }

  lemma TimeFirst(ts: string, rest: string)
    requires |ts| == 19
    ensures var s := ts + ([' '] + rest); |s| >= 20 && s[..19] == ts && s[20..] == rest
  {
  }

  /** The time, level, file, function, line and message of a record can be read back from its
      text whenever neither the file nor the function contains a colon. */
  lemma RecordReadsBack(c: Call)
    requires IsTimestamp(c.ts) && ':' !in c.file && ':' !in c.func
    ensures Parse(Record(c)) == c
  {
    var name, number := Keyword(c.level), DecimalInt(c.line);
    var r4 := number + ([' '] + c.message);
    var r3 := c.func + ([':'] + r4);
    var r2 := c.file + ([':'] + r3);
    var r1 := name + ([' '] + r2);
    Associated(c.ts, name, c.file, c.func, number, c.message);
    TimeFirst(c.ts, r1);
    NameOf(c.level);
    NumberOf(c.line);
    CutAtSeparator(name, ' ', r2);
    CutAtSeparator(c.file, ':', r3);
    CutAtSeparator(c.func, ':', r4);
    CutAtSeparator(number, ' ', c.message);
  }

  lemma Associated(a: string, b: string, c: string, d: string, e: string, f: string)
    ensures a + " " + b + " " + c + ":" + d + ":" + e + " " + f
      == a + ([' '] + (b + ([' '] + (c + ([':'] + (d + ([':'] + (e + ([' '] + f)))))))))
  {
    Associate(a, b, c, d, e, f);
    Step(e, ' ', f);
    Step(d, ':', e + [' '] + f);
    Step(c, ':', d + [':'] + (e + [' '] + f));
    Step(b, ' ', c + [':'] + (d + [':'] + (e + [' '] + f)));
    Step(a, ' ', b + [' '] + (c + [':'] + (d + [':'] + (e + [' '] + f))));
  }

  lemma Step(a: string, sep: char, b: string)
    ensures a + [sep] + b == a + ([sep] + b)
  {
  }

  /** Hence no two calls have the same record. */
  lemma RecordsDiffer(c: Call, d: Call)
    requires IsTimestamp(c.ts) && ':' !in c.file && ':' !in c.func
    requires IsTimestamp(d.ts) && ':' !in d.file && ':' !in d.func
    ensures Record(c) == Record(d) ==> c == d
  {
    RecordReadsBack(c);
    RecordReadsBack(d);
  }
}
