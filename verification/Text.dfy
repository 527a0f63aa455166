/** Decimal text, C strings and substring search. */
module Text {
  import opened Sequences

  const DIGITS := "0123456789"

  predicate IsDigit(c: char) {
    '0' <= c <= '9'
  }

  predicate AllDigits(s: string) {
    forall c | c in s :: IsDigit(c)
  }

  function DigitValue(c: char): int
    requires IsDigit(c)
  {
    c as int - '0' as int
  }

  /** std::to_string and printf's %d on a non-negative number. */
  function Decimal(n: nat): (s: string)
    ensures s != [] && AllDigits(s)
  {
    if n < 10 then [DIGITS[n]] else Decimal(n / 10) + [DIGITS[n % 10]]
  }

  /** The number a digit string denotes. */
  function Value(s: string): nat
    requires AllDigits(s)
  {
    if s == [] then 0 else 10 * Value(s[..|s| - 1]) + DigitValue(s[|s| - 1])
  }

  lemma {:induction false} ValueOfDecimal(n: nat)
    ensures Value(Decimal(n)) == n
  {
    var s := Decimal(n);
    if n >= 10 {
      ValueOfDecimal(n / 10);
      assert s[..|s| - 1] == Decimal(n / 10);
    } else {
      assert s[..0] == [];
    }
  }

  /** std::to_string on an int. */
  function DecimalInt(n: int): string {
    if n < 0 then "-" + Decimal(-n) else Decimal(n)
  }

  predicate OccursAt(text: string, key: string, i: nat) {
    i + |key| <= |text| && text[i..i + |key|] == key
  }

  /** std::string::find(key) != npos. */
  predicate Contains(text: string, key: string) {
    exists i | 0 <= i <= |text| :: OccursAt(text, key, i)
  }

  lemma Straddles(a: string, sep: char, b: string, key: string, i: nat)
    requires OccursAt(a + [sep] + b, key, i) && i <= |a| < i + |key|
    ensures sep in key
  {
    assert (a + [sep] + b)[i..i + |key|][|a| - i] == sep;
    assert key[|a| - i] in key;
  }

  lemma OccursInHead(a: string, sep: char, b: string, key: string, i: nat)
    requires i + |key| <= |a|
    ensures OccursAt(a + [sep] + b, key, i) <==> OccursAt(a, key, i)
  {
    assert (a + [sep] + b)[i..i + |key|] == a[i..i + |key|];
  }

  lemma OccursInTail(a: string, sep: char, b: string, key: string, j: nat)
    requires j + |key| <= |b|
    ensures OccursAt(a + [sep] + b, key, |a| + 1 + j) <==> OccursAt(b, key, j)
  {
    var i := |a| + 1 + j;
    assert (a + [sep] + b)[i..i + |key|] == b[j..j + |key|];
  }

  /** A key never straddles a separator that does not occur in it. */
  lemma ContainsSplit(a: string, sep: char, b: string, key: string)
    requires key != "" && sep !in key
    ensures Contains(a + [sep] + b, key) <==> Contains(a, key) || Contains(b, key)
  {
    var text := a + [sep] + b;
    if Contains(text, key) {
      var i :| 0 <= i <= |text| && OccursAt(text, key, i);
      if i + |key| <= |a| {
        OccursInHead(a, sep, b, key, i);
      } else if i > |a| {
        OccursInTail(a, sep, b, key, i - |a| - 1);
      } else {
        Straddles(a, sep, b, key, i);
      }
    }
    if Contains(a, key) {
      var i :| 0 <= i <= |a| && OccursAt(a, key, i);
      OccursInHead(a, sep, b, key, i);
    }
    if Contains(b, key) {
      var j :| 0 <= j <= |b| && OccursAt(b, key, j);
      OccursInTail(a, sep, b, key, j);
    }
  }

  /** What a prefix contains, the whole contains. */
  lemma ContainsPrefix(text: string, n: nat, key: string)
    requires n <= |text| && Contains(text[..n], key)
    ensures Contains(text, key)
  {
    var i :| 0 <= i <= n && OccursAt(text[..n], key, i);
    assert OccursAt(text, key, i) by { assert text[i..i + |key|] == text[..n][i..i + |key|]; }
  }

  /** A text whose characters do not include the key's first one does not contain the key. */
  lemma ContainsNeedsFirst(text: string, key: string)
    requires key != "" && key[0] !in text
    ensures !Contains(text, key)
  {
    forall i | 0 <= i <= |text| ensures !OccursAt(text, key, i) {
      if i + |key| <= |text| {
        assert text[i..i + |key|][0] == text[i];
      }
    }
  }

  /** The C string at the start of a buffer: everything before the first NUL. */
  function CString(s: string): (r: string)
    ensures IsPrefix(r, s) && '\0' !in r
    ensures '\0' !in s ==> r == s
    ensures '\0' in s ==> |r| < |s| && s[|r|] == '\0'
  {
    if s == [] || s[0] == '\0' then []
    else
      var t := CString(s[1..]);
      [s[0]] + t
  }
}
