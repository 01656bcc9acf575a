/** The string functions the service relies on, over Unicode scalar values.
    Lower-casing is the ASCII part of strings.ToLower. */
module Text {
  /** unicode.IsSpace */
  predicate IsSpace(c: char) {
    || '\t' <= c <= '\r' || c == ' ' || c == '\U{85}' || c == '\U{A0}'
    || c == '\U{1680}' || '\U{2000}' <= c <= '\U{200A}' || c == '\U{2028}'
    || c == '\U{2029}' || c == '\U{202F}' || c == '\U{205F}' || c == '\U{3000}'
  }

  predicate AllSpace(s: string) { forall c | c in s :: IsSpace(c) }

  function TrimLeft(s: string): string {
    if s != "" && IsSpace(s[0]) then TrimLeft(s[1..]) else s
  }

  function TrimRight(s: string): string {
    if s != "" && IsSpace(s[|s| - 1]) then TrimRight(s[..|s| - 1]) else s
  }

  function TrimSpace(s: string): string { TrimRight(TrimLeft(s)) }

  /** Neither end of s is a space. */
  predicate Trimmed(s: string) { s != "" ==> !IsSpace(s[0]) && !IsSpace(s[|s| - 1]) }

  lemma {:induction false} TrimLeftCuts(s: string) returns (pre: string)
    ensures s == pre + TrimLeft(s) && AllSpace(pre)
    ensures TrimLeft(s) != "" ==> !IsSpace(TrimLeft(s)[0])
  {
    if s != "" && IsSpace(s[0]) {
      var rest := TrimLeftCuts(s[1..]);
      pre := [s[0]] + rest;
    } else {
      pre := "";
    }
  }

  lemma {:induction false} TrimRightCuts(s: string) returns (post: string)
    ensures s == TrimRight(s) + post && AllSpace(post)
    ensures TrimRight(s) != "" ==> !IsSpace(TrimRight(s)[|TrimRight(s)| - 1])
  {
    if s != "" && IsSpace(s[|s| - 1]) {
      var rest := TrimRightCuts(s[..|s| - 1]);
      post := rest + [s[|s| - 1]];
    } else {
      post := "";
    }
  }

  /** Trimming cuts spaces off both ends and nothing else. */
  lemma TrimSpaceCuts(s: string) returns (pre: string, post: string)
    ensures s == pre + TrimSpace(s) + post
    ensures AllSpace(pre) && AllSpace(post) && Trimmed(TrimSpace(s))
  {
    pre := TrimLeftCuts(s);
    post := TrimRightCuts(TrimLeft(s));
  }

  lemma TrimSpaceFixes(s: string)
    requires Trimmed(s)
    ensures TrimSpace(s) == s
  {
  }

  function Lower(c: char): char {
    if 'A' <= c <= 'Z' then (c as int + 32) as char else c
  }

  function ToLower(s: string): string { seq(|s|, i requires 0 <= i < |s| => Lower(s[i])) }

  predicate IsLower(s: string) { ToLower(s) == s }

  const UPPER := "ABCDEFGHIJKLMNOPQRSTUVWXYZ"
  const LOWER := "abcdefghijklmnopqrstuvwxyz"

  lemma Alphabet(k: int)
    requires 0 <= k < 26
    ensures UPPER[k] as int == 'A' as int + k && LOWER[k] as int == 'a' as int + k
  {
  }

  lemma Capitals(c: char)
    ensures c in UPPER <==> 'A' <= c <= 'Z'
  {
    if 'A' <= c <= 'Z' { Alphabet(c as int - 'A' as int); }
    if k :| 0 <= k < |UPPER| && UPPER[k] == c { Alphabet(k); }
  }

  /** b has the small letter for each capital one of a, and every other character as it is. */
  ghost predicate IsLowered(a: string, b: string) {
    && |a| == |b|
    && (forall i, k | 0 <= i < |a| && 0 <= k < 26 && a[i] == UPPER[k] :: b[i] == LOWER[k])
    && (forall i | 0 <= i < |a| && a[i] !in UPPER :: b[i] == a[i])
  }

  /** Lower-casing does just that, and leaves no capital. */
  lemma ToLowerLetters(s: string)
    ensures forall t :: IsLowered(s, t) <==> t == ToLower(s)
    ensures forall c | c in ToLower(s) :: c !in UPPER
  {
    forall i, k | 0 <= i < |s| && 0 <= k < 26 && s[i] == UPPER[k] ensures ToLower(s)[i] == LOWER[k] {
      Alphabet(k);
    }
    forall i | 0 <= i < |s| && s[i] !in UPPER ensures ToLower(s)[i] == s[i] { Capitals(s[i]); }
    forall t | IsLowered(s, t) ensures t == ToLower(s) {
      forall i | 0 <= i < |s| ensures t[i] == ToLower(s)[i] {
        if k :| 0 <= k < |UPPER| && UPPER[k] == s[i] { Alphabet(k); }
      }
    }
    forall c | c in ToLower(s) ensures c !in UPPER { Capitals(c); }
  }

  /** The two cases of one letter of the alphabet. */
  predicate CasesOf(k: int, x: char, y: char) {
    0 <= k < 26 && ((x == UPPER[k] && y == LOWER[k]) || (x == LOWER[k] && y == UPPER[k]))
  }

  /** Two strings that differ in the case of ASCII letters at most. */
  ghost predicate SameButCase(a: string, b: string) {
    |a| == |b| && forall i | 0 <= i < |a| :: a[i] == b[i] || exists k :: CasesOf(k, a[i], b[i])
  }

  lemma CasesLowered(k: int, x: char, y: char)
    requires CasesOf(k, x, y)
    ensures Lower(x) == Lower(y)
  {
    Alphabet(k);
  }

  /** They are the same in lower case. */
  lemma CaseIsLowered(a: string, b: string)
    requires SameButCase(a, b)
    ensures ToLower(a) == ToLower(b)
  {
    forall i | 0 <= i < |a| ensures Lower(a[i]) == Lower(b[i]) {
      if k :| CasesOf(k, a[i], b[i]) { CasesLowered(k, a[i], b[i]); }
    }
  }

  /** Trimming and lower-casing can be done in either order. */
  lemma {:induction false} TrimLeftLowers(s: string)
    ensures ToLower(TrimLeft(s)) == TrimLeft(ToLower(s))
    decreases |s|
  {
    if s != "" && IsSpace(s[0]) {
      TrimLeftLowers(s[1..]);
      assert ToLower(s)[1..] == ToLower(s[1..]);
    }
  }

  lemma {:induction false} TrimRightLowers(s: string)
    ensures ToLower(TrimRight(s)) == TrimRight(ToLower(s))
    decreases |s|
  {
    if s != "" && IsSpace(s[|s| - 1]) {
      TrimRightLowers(s[..|s| - 1]);
      assert ToLower(s)[..|s| - 1] == ToLower(s[..|s| - 1]);
    }
  }

  lemma TrimSpaceLowers(s: string)
    ensures ToLower(TrimSpace(s)) == TrimSpace(ToLower(s))
  {
    TrimLeftLowers(s);
    TrimRightLowers(TrimLeft(s));
  }

  /** The characters with the White_Space property of Unicode, as far as Go counts them. */
  const SPACES := "\t\n\U{B}\U{C}\r \U{85}\U{A0}\U{1680}"
    + "\U{2000}\U{2001}\U{2002}\U{2003}\U{2004}\U{2005}\U{2006}\U{2007}\U{2008}\U{2009}\U{200A}"
    + "\U{2028}\U{2029}\U{202F}\U{205F}\U{3000}"

  lemma SpacesListed(c: char)
    ensures IsSpace(c) <==> c in SPACES
  {
  }

  /** strings.Split with a one-character separator */
  function Split(s: string, sep: char): (parts: seq<string>)
    ensures |parts| >= 1
  {
    if s == "" then [""]
    else
      var rest := Split(s[1..], sep);
      if s[0] == sep then [""] + rest else [[s[0]] + rest[0]] + rest[1..]
  }

  lemma {:induction false} SplitPlain(s: string, sep: char)
    requires sep !in s
    ensures Split(s, sep) == [s]
  {
    if s != "" {
      assert s[0] in s;
      SplitPlain(s[1..], sep);
      assert [s[0]] + s[1..] == s;
    }
  }

  lemma {:induction false} SplitAtFirst(a: string, b: string, sep: char)
    requires sep !in a
    ensures Split(a + [sep] + b, sep) == [a] + Split(b, sep)
  {
    var s := a + [sep] + b;
    if a == "" {
      assert s[1..] == b;
    } else {
      assert a[0] in a;
      assert s[1..] == a[1..] + [sep] + b;
      SplitAtFirst(a[1..], b, sep);
      assert [a[0]] + a[1..] == a;
      assert ([a[1..]] + Split(b, sep))[1..] == Split(b, sep);
    }
  }

  /** The first piece of a split is free of the separator. */
  lemma {:induction false} SplitHead(s: string, sep: char)
    ensures sep !in Split(s, sep)[0]
    ensures |Split(s, sep)| == 1 ==> s == Split(s, sep)[0]
    ensures |Split(s, sep)| > 1 ==>
      exists b :: s == Split(s, sep)[0] + [sep] + b && Split(s, sep)[1..] == Split(b, sep)
  {
    if s != "" {
      SplitHead(s[1..], sep);
      var rest := Split(s[1..], sep);
      if s[0] == sep {
        assert s == "" + [sep] + s[1..];
      } else if |rest| > 1 {
        var b :| s[1..] == rest[0] + [sep] + b && rest[1..] == Split(b, sep);
        assert s == Split(s, sep)[0] + [sep] + b;
      }
    }
  }

  /** A string splits into exactly the pieces a and b when it is a, sep, b and
      neither piece holds the separator. */
  lemma SplitInTwo(s: string, sep: char, a: string, b: string)
    ensures Split(s, sep) == [a, b] <==> s == a + [sep] + b && sep !in a && sep !in b
  {
    if Split(s, sep) == [a, b] {
      SplitHead(s, sep);
      var tail :| s == a + [sep] + tail && Split(s, sep)[1..] == Split(tail, sep);
      SplitHead(tail, sep);
    }
    if s == a + [sep] + b && sep !in a && sep !in b {
      SplitAtFirst(a, b, sep);
      SplitPlain(b, sep);
    }
  }
}
