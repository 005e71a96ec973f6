/** HTML escaping, and the truncation of an escaped string that never splits an entity. */
module Truncation {
  import opened Words

  function Entity(c: char): string {
    match c
    case '&' => "&amp;"
    case '<' => "&lt;"
    case '>' => "&gt;"
    case '"' => "&quot;"
    case '\'' => "&#x27;"
    case _ => [c]
  }

  /** Exactly five characters are escaped, each by its own entity. */
  lemma {:induction false} EntityTable(c: char)
    ensures Entity('&') == "&amp;" && Entity('<') == "&lt;" && Entity('>') == "&gt;"
    ensures Entity('"') == "&quot;" && Entity('\'') == "&#x27;"
    ensures c !in "&<>\"'" ==> Entity(c) == [c]
  {
    assert "&<>\"'"[0] == '&' && "&<>\"'"[1] == '<' && "&<>\"'"[2] == '>' && "&<>\"'"[3] == '"' && "&<>\"'"[4] == '\'';
  }

  /** Character by character, with `f` for each. */
  function Mapped(f: char -> string, raw: string): string {
    if raw == "" then "" else Mapped(f, raw[..|raw| - 1]) + f(raw[|raw| - 1])
  }

  function Esc(raw: string): string { Mapped(Entity, raw) }

  /** The position of the last ampersand, -1 if there is none. */
  function LastAmp(s: string): (r: int)
    ensures -1 <= r < |s|
    ensures r >= 0 ==> s[r] == '&'
    ensures forall i | r < i < |s| :: s[i] != '&'
  {
    if s == "" then -1 else if s[|s| - 1] == '&' then |s| - 1 else LastAmp(s[..|s| - 1])
  }

  /** What is kept of a cut: an entity that was opened and not closed goes. */
  function Kept(cut: string): string {
    var amp := LastAmp(cut);
    if amp != -1 && ';' !in cut[amp..] then cut[..amp] else cut
  }

  /** `limit` counts characters of the escaped string. */
  function SafeTruncate(escaped: string, limit: nat): string {
    if |escaped| <= limit then escaped
    else
      StripRight(Kept(escaped[..limit])) + "..."
  }

  /** A character stands for itself, or for an entity: an ampersand, then no other, up to the semicolon at the end. */
  predicate EntityLike(c: char, x: string) {
    && |x| > 0 && (|x| == 1 ==> x == [c] && c != '&')
    && (|x| > 1 ==>
          && !IsSpace(c) && x[0] == '&' && x[|x| - 1] == ';'
          && forall i | 0 < i < |x| - 1 :: x[i] != '&' && x[i] != ';')
  }

  ghost predicate Escapes(f: char -> string) { forall c :: EntityLike(c, f(c)) }

  lemma {:induction false} EntitiesEscape()
    ensures Escapes(Entity)
  {
  }

  lemma {:induction false} EscSnoc(f: char -> string, raw: string, k: nat)
    requires k < |raw|
    ensures Mapped(f, raw[..k + 1]) == Mapped(f, raw[..k]) + f(raw[k])
  {
    assert raw[..k + 1][..k] == raw[..k];
  }

  /** The escape of a prefix is a prefix of the escape. */
  lemma {:induction false} EscPrefix(f: char -> string, raw: string, k: nat)
    requires k <= |raw|
    ensures Mapped(f, raw[..k]) <= Mapped(f, raw)
    decreases |raw| - k
  {
    if k == |raw| {
      assert raw[..k] == raw;
    } else {
      EscSnoc(f, raw, k);
      EscPrefix(f, raw, k + 1);
    }
  }

  /** A semicolon follows the last ampersand. */
  predicate Closed(s: string) { LastAmp(s) >= 0 ==> ';' in s[LastAmp(s)..] }

  /** Every ampersand of an escaped string opens an entity that is closed. */
  lemma {:induction false} AmpsAreClosed(f: char -> string, raw: string)
    requires Escapes(f)
    ensures Closed(Mapped(f, raw))
  {
    if raw != "" {
      var n := |raw| - 1;
      AmpsAreClosed(f, raw[..n]);
      var before, x, amp := Mapped(f, raw[..n]), f(raw[n]), LastAmp(Mapped(f, raw));
      assert EntityLike(raw[n], f(raw[n]));
      assert Mapped(f, raw)[|Mapped(f, raw)| - 1] == x[|x| - 1];
      if |x| > 1 {
        assert Mapped(f, raw)[|before|] == '&';
        assert Mapped(f, raw)[amp..][|Mapped(f, raw)| - 1 - amp] == ';';
      } else if amp >= 0 {
        assert amp < |before| && before[amp] == '&';
        assert amp == LastAmp(before);
        assert Mapped(f, raw)[amp..] == before[amp..] + x;
      }
    }
  }

  /** The longest prefix whose escape fits, of a text whose escape does not. */
  lemma {:induction false} LongestFitting(f: char -> string, raw: string, limit: nat) returns (k: nat)
    requires limit < |Mapped(f, raw)|
    ensures k < |raw| && |Mapped(f, raw[..k])| <= limit < |Mapped(f, raw[..k + 1])|
  {
    var n := |raw| - 1;
    if |Mapped(f, raw[..n])| <= limit {
      k := n;
      assert raw[..n + 1] == raw;
    } else {
      k := LongestFitting(f, raw[..n], limit);
      assert raw[..n][..k] == raw[..k] && raw[..n][..k + 1] == raw[..k + 1];
    }
  }

  /** A cut inside an entity x, after a text whose entities are closed, keeps just that text. */
  lemma {:induction false} KeptBefore(p: string, x: string, m: nat)
    requires Closed(p)
    requires m < |x| && (|x| > 1 ==> x[0] == '&' && forall i | 0 < i < |x| - 1 :: x[i] != '&' && x[i] != ';')
    ensures Kept(p + x[..m]) == p
  {
    var cut := p + x[..m];
    if m == 0 {
      assert cut == p;
    } else {
      assert cut[|p|] == '&';
      assert LastAmp(cut) == |p|;
      assert cut[|p|..] == x[..m] && cut[..|p|] == p;
    }
  }

  lemma {:induction false} CutInside(whole: string, p: string, x: string, limit: nat)
    requires Closed(p) && p + x <= whole && |p| <= limit < |p| + |x|
    requires |x| > 1 ==> x[0] == '&' && forall i | 0 < i < |x| - 1 :: x[i] != '&' && x[i] != ';'
    ensures Kept(whole[..limit]) == p
  {
    assert whole[..limit] == (p + x)[..limit] == p + x[..limit - |p|];
    KeptBefore(p, x, limit - |p|);
  }

  /** The truncation keeps the escape of the prefix that fits just before one that does not. */
  lemma {:induction false} KeepsWholeEntities(f: char -> string, raw: string, limit: nat, k: nat)
    requires Escapes(f) && k < |raw| && limit < |Mapped(f, raw)|
    requires |Mapped(f, raw[..k])| <= limit < |Mapped(f, raw[..k + 1])|
    ensures Kept(Mapped(f, raw)[..limit]) == Mapped(f, raw[..k])
  {
    EscSnoc(f, raw, k);
    EscPrefix(f, raw, k + 1);
    AmpsAreClosed(f, raw[..k]);
    assert EntityLike(raw[k], f(raw[k]));
    CutInside(Mapped(f, raw), Mapped(f, raw[..k]), f(raw[k]), limit);
  }

  lemma {:induction false} StripSnoc(s: string, x: string)
    requires x != ""
    ensures !IsSpace(x[|x| - 1]) ==> StripRight(s + x) == s + x
    ensures |x| == 1 && IsSpace(x[0]) ==> StripRight(s + x) == StripRight(s)
  {
  }

  /** White space is its own escape, and an entity does not end in white space. */
  lemma {:induction false} StripEscaped(f: char -> string, raw: string)
    requires Escapes(f)
    ensures StripRight(Mapped(f, raw)) == Mapped(f, StripRight(raw))
  {
    if raw != "" {
      var n := |raw| - 1;
      assert EntityLike(raw[n], f(raw[n]));
      StripSnoc(Mapped(f, raw[..n]), f(raw[n]));
      StripSnoc(raw[..n], [raw[n]]);
      assert raw[..n] + [raw[n]] == raw;
      if IsSpace(raw[n]) {
        StripEscaped(f, raw[..n]);
      }
    }
  }

  /** A truncated text is a well-formed escape followed by dots: with p the longest prefix of the raw text whose escape
      fits the limit, the result is the escape of p without its trailing white space, and three dots; so no entity is
      split, nothing that fits is lost, and the length is at most limit + 3. A text that fits is left alone. */
  lemma {:induction false} TruncationIsSafe(raw: string, limit: nat) returns (p: string)
    ensures p <= raw && |Esc(p)| <= limit
    ensures |p| < |raw| ==> limit < |Esc(raw[..|p| + 1])|
    ensures SafeTruncate(Esc(raw), limit) == if p == raw then Esc(raw) else Esc(StripRight(p)) + "..."
    ensures |SafeTruncate(Esc(raw), limit)| <= limit + 3
  {
    EntitiesEscape();
    p := GenericTruncation(Entity, raw, limit);
  }

  lemma {:induction false} GenericTruncation(f: char -> string, raw: string, limit: nat) returns (p: string)
    requires Escapes(f)
    ensures p <= raw && |Mapped(f, p)| <= limit
    ensures |p| < |raw| ==> limit < |Mapped(f, raw[..|p| + 1])|
    ensures SafeTruncate(Mapped(f, raw), limit) == if p == raw then Mapped(f, raw) else Mapped(f, StripRight(p)) + "..."
    ensures |SafeTruncate(Mapped(f, raw), limit)| <= limit + 3
  {
    p := raw;
    if limit < |Mapped(f, raw)| {
      var k := LongestFitting(f, raw, limit);
      p := raw[..k];
      LongCase(f, raw, limit, k);
    }
  }

  lemma {:induction false} LongCase(f: char -> string, raw: string, limit: nat, k: nat)
    requires Escapes(f) && k < |raw| && limit < |Mapped(f, raw)|
    requires |Mapped(f, raw[..k])| <= limit < |Mapped(f, raw[..k + 1])|
    ensures var r := SafeTruncate(Mapped(f, raw), limit);
            r == Mapped(f, StripRight(raw[..k])) + "..." && |r| <= limit + 3
  {
    KeepsWholeEntities(f, raw, limit, k);
    StripEscaped(f, raw[..k]);
  }
}
