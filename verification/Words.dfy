/** Characters, decimal numbers, and white space, as the other modules use them. ASCII only. */
module Words {

  import opened Wrappers

  predicate IsSpace(c: char) { c in {' ', '\t', '\n', '\r', '\U{000B}', '\U{000C}'} }

  /** Tab, line feed, vertical tab, form feed, carriage return, and space. */
  lemma {:induction false} SpaceIs(c: char)
    ensures IsSpace(c) <==> 9 <= c as int <= 13 || c as int == 32
  {
  }

  function StripLeft(s: string): (r: string)
    ensures r == "" || !IsSpace(r[0])
    ensures s != "" && !IsSpace(s[0]) ==> r == s
  {
    if s != "" && IsSpace(s[0]) then StripLeft(s[1..]) else s
  }

  function StripRight(s: string): (r: string)
    ensures r == "" || !IsSpace(r[|r| - 1])
    ensures r <= s && (s != "" && !IsSpace(s[|s| - 1]) ==> r == s)
  {
    if s != "" && IsSpace(s[|s| - 1]) then StripRight(s[..|s| - 1]) else s
  }

  function Strip(s: string): string { StripRight(StripLeft(s)) }

  lemma {:induction false} StripTwice(s: string)
    ensures Strip(Strip(s)) == Strip(s)
  {
  }

  predicate AllSpace(s: string) { forall i | 0 <= i < |s| :: IsSpace(s[i]) }

  /** Stripping takes the white space off both ends, and nothing else. */
  lemma {:induction false} StripIs(s: string) returns (before: string, after: string)
    ensures s == before + Strip(s) + after && AllSpace(before) && AllSpace(after)
    ensures Strip(s) != "" ==> !IsSpace(Strip(s)[0]) && !IsSpace(Strip(s)[|Strip(s)| - 1])
  {
    before := LeftOf(s);
    after := RightOf(StripLeft(s));
  }

  lemma {:induction false} LeftOf(s: string) returns (before: string)
    ensures s == before + StripLeft(s) && AllSpace(before)
  {
    before := "";
    if s != "" && IsSpace(s[0]) {
      var more := LeftOf(s[1..]);
      before := [s[0]] + more;
    }
  }

  lemma {:induction false} RightOf(s: string) returns (after: string)
    ensures s == StripRight(s) + after && AllSpace(after)
  {
    after := "";
    if s != "" && IsSpace(s[|s| - 1]) {
      var more := RightOf(s[..|s| - 1]);
      after := more + [s[|s| - 1]];
    }
  }

  /** The same character, or the two cases of one ASCII letter. */
  predicate SameLetter(c: char, d: char) {
    c == d || (IsLetter(c) && IsLetter(d) && (c as int == d as int + 32 || d as int == c as int + 32))
  }

  predicate SameButCase(s: string, t: string) {
    |s| == |t| && forall i | 0 <= i < |s| :: SameLetter(s[i], t[i])
  }

  lemma {:induction false} UpperIs(s: string, t: string)
    ensures Upper(s) == Upper(t) <==> SameButCase(s, t)
  {
    if |s| == |t| {
      forall i | 0 <= i < |s| ensures SameLetter(s[i], t[i]) <==> Upper(s)[i] == Upper(t)[i] {
        UpperCharIs(s[i], t[i]);
      }
    }
  }

  lemma {:induction false} UpperCharIs(c: char, d: char)
    ensures UpperChar(c) == UpperChar(d) <==> SameLetter(c, d)
  {
  }

  function UpperChar(c: char): char { if 'a' <= c <= 'z' then c - 'a' + 'A' else c }

  function LowerChar(c: char): char { if 'A' <= c <= 'Z' then c - 'A' + 'a' else c }

  function Upper(s: string): (r: string)
    ensures |r| == |s|
  {
    seq(|s|, i requires 0 <= i < |s| => UpperChar(s[i]))
  }

  function Lower(s: string): (r: string)
    ensures |r| == |s|
  {
    seq(|s|, i requires 0 <= i < |s| => LowerChar(s[i]))
  }

  predicate IsDigit(c: char) { '0' <= c <= '9' }

  predicate IsLetter(c: char) { 'A' <= c <= 'Z' || 'a' <= c <= 'z' }

  function DigitOf(n: nat): char
    requires n < 10
  {
    '0' + n as char
  }

  function ValueOf(c: char): nat
    requires IsDigit(c)
  {
    c as int - '0' as int
  }

  function Print(n: nat): (s: string)
    ensures |s| > 0 && forall i | 0 <= i < |s| :: IsDigit(s[i])
  {
    if n < 10 then [DigitOf(n)] else Print(n / 10) + [DigitOf(n % 10)]
  }

  /** Decimal digits, the most significant first. */
  lemma {:induction false} PrintIs(n: nat)
    ensures Print(n) == (if n < 10 then "" else Print(n / 10)) + ["0123456789"[n % 10]]
  {
    assert "0123456789"[n % 10] == DigitOf(n % 10);
  }

  function Parse(s: string): Option<nat> {
    if s == "" || !IsDigit(s[|s| - 1]) then None
    else if |s| == 1 then Some(ValueOf(s[0]))
    else match Parse(s[..|s| - 1]) case None => None case Some(n) => Some(10 * n + ValueOf(s[|s| - 1]))
  }

  /** What is printed is read back. */
  lemma {:induction false} PrintParses(n: nat)
    ensures Parse(Print(n)) == Some(n)
  {
    if n >= 10 {
      PrintParses(n / 10);
      assert Print(n)[..|Print(n)| - 1] == Print(n / 10);
    }
  }
}
