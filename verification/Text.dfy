/** Case folding and trimming of byte strings. */
module Text {
  function Fold(c: char): char { if 'A' <= c <= 'Z' then (c as int + 32) as char else c }

  function FoldAll(s: string): (t: string)
    ensures |t| == |s|
  {
    seq(|s|, i requires 0 <= i < |s| => Fold(s[i]))
  }

  /** Equal up to the case of ASCII letters. */
  predicate SameText(a: string, b: string) { FoldAll(a) == FoldAll(b) }

  function FoldVersion(s: string): (t: string)
    ensures |t| == |s|
  {
    seq(|s|, i requires 0 <= i < |s| => if s[i] == '_' then '-' else Fold(s[i]))
  }

  /** Equal up to the case of ASCII letters and to the choice between `_` and `-`. */
  predicate SameVersion(a: string, b: string) { FoldVersion(a) == FoldVersion(b) }

  lemma SameTextIsSameVersion(a: string, b: string)
    requires SameText(a, b)
    ensures SameVersion(a, b)
  {
    forall i | 0 <= i < |a| ensures FoldVersion(a)[i] == FoldVersion(b)[i] {
      assert FoldAll(a)[i] == FoldAll(b)[i];
    }
  }

  function TrimLeft(s: string, blank: set<char>): string {
    if s != [] && s[0] in blank then TrimLeft(s[1..], blank) else s
  }

  function TrimRight(s: string, blank: set<char>): string {
    if s != [] && s[|s| - 1] in blank then TrimRight(s[..|s| - 1], blank) else s
  }

  function Trim(s: string, blank: set<char>): string { TrimRight(TrimLeft(s, blank), blank) }

  /** Nothing to trim at either end. */
  predicate Trimmed(s: string, blank: set<char>) { s == [] || (s[0] !in blank && s[|s| - 1] !in blank) }

  lemma {:induction false} TrimLeftStops(s: string, blank: set<char>)
    ensures var t := TrimLeft(s, blank);
            |t| <= |s| && t == s[|s| - |t|..] && (t == [] || t[0] !in blank)
  {
    if s != [] && s[0] in blank { TrimLeftStops(s[1..], blank); }
  }

  lemma {:induction false} TrimRightStops(s: string, blank: set<char>)
    ensures var t := TrimRight(s, blank); t <= s && (t == [] || t[|t| - 1] !in blank)
    decreases |s|
  {
    if s != [] && s[|s| - 1] in blank { TrimRightStops(s[..|s| - 1], blank); }
  }

  lemma TrimTrims(s: string, blank: set<char>)
    ensures Trimmed(Trim(s, blank), blank)
  {
    TrimLeftStops(s, blank);
    TrimRightStops(TrimLeft(s, blank), blank);
  }

  /** Trimmed strings are exactly those that trimming leaves alone. */
  lemma TrimFixes(s: string, blank: set<char>)
    ensures Trim(s, blank) == s <==> Trimmed(s, blank)
  {
    TrimTrims(s, blank);
  }

  lemma TrimAdds(s: string, blank: set<char>)
    ensures forall c :: c in Trim(s, blank) ==> c in s
  {
    TrimLeftStops(s, blank);
    TrimRightStops(TrimLeft(s, blank), blank);
  }
}
