/** Normalised e-mail addresses, repository names and tokens. */
module Names {
  import opened Common
  import opened Text

  // ----- repositories -----

  predicate HasBlank(s: string) { exists c | c in s :: c == ' ' || c == '\t' || c == '\n' || c == '\r' }

  function NormalizeRepo(repo: string): Result<(string, string), AppError> {
    var trimmed := ToLower(TrimSpace(repo));
    var parts := Split(trimmed, '/');
    if |parts| != 2 || parts[0] == "" || parts[1] == "" then Err(InvalidRepoFormat)
    else if HasBlank(trimmed) then Err(InvalidRepoFormat)
    else Ok((parts[0], parts[1]))
  }

  /** One half of a stored repository name. */
  predicate IsRepoPart(p: string) { p != "" && '/' !in p && !HasBlank(p) && IsLower(p) }

  /** The owner and name of every stored row. */
  predicate IsRepo(owner: string, name: string) {
    IsRepoPart(owner) && IsRepoPart(name) && Trimmed(owner + "/" + name)
  }

  lemma LowerKeepsShape(s: string)
    ensures IsLower(ToLower(s))
    ensures Trimmed(s) ==> Trimmed(ToLower(s))
  {
  }

  lemma PartsOfRepo(owner: string, name: string)
    ensures IsLower(owner + "/" + name) <==> IsLower(owner) && IsLower(name)
    ensures HasBlank(owner + "/" + name) <==> HasBlank(owner) || HasBlank(name)
  {
    var s := owner + "/" + name;
    assert |ToLower(s)| == |s|;
    if IsLower(s) {
      forall i | 0 <= i < |owner| ensures ToLower(owner)[i] == owner[i] { assert ToLower(s)[i] == s[i]; }
      forall i | 0 <= i < |name| ensures ToLower(name)[i] == name[i] {
        assert ToLower(s)[|owner| + 1 + i] == s[|owner| + 1 + i];
      }
    }
    if IsLower(owner) && IsLower(name) {
      forall i | 0 <= i < |s| ensures ToLower(s)[i] == s[i] {
        if i < |owner| { assert ToLower(owner)[i] == owner[i]; }
        if i > |owner| { assert ToLower(name)[i - |owner| - 1] == name[i - |owner| - 1]; }
      }
    }
    assert forall c :: c in s <==> c in owner || c == '/' || c in name;
  }

  /** NormalizeRepo accepts exactly the inputs that are, up to case and outer
      space, an owner and a name around one slash, and returns those two. */
  lemma NormalizeRepoAccepts(repo: string, owner: string, name: string)
    ensures NormalizeRepo(repo) == Ok((owner, name)) <==>
      IsRepo(owner, name) && ToLower(TrimSpace(repo)) == owner + "/" + name
    ensures NormalizeRepo(repo).Err? ==> NormalizeRepo(repo) == Err(InvalidRepoFormat)
  {
    var trimmed := ToLower(TrimSpace(repo));
    var _, _ := TrimSpaceCuts(repo);
    LowerKeepsShape(TrimSpace(repo));
    SplitInTwo(trimmed, '/', owner, name);
    PartsOfRepo(owner, name);
    if NormalizeRepo(repo) == Ok((owner, name)) {
      assert Split(trimmed, '/') == [owner, name];
    }
  }

  /** There is one slash, at i, and something on both sides of it. */
  predicate OneSlash(t: string, i: int) {
    0 < i < |t| - 1 && t[i] == '/' && forall j | 0 <= j < |t| && j != i :: t[j] != '/'
  }

  /** Lower-casing moves no slash and no blank. */
  lemma LowerKeepsMarks(t: string)
    ensures |ToLower(t)| == |t| && forall i | 0 <= i < |t| :: ToLower(t)[i] == '/' <==> t[i] == '/'
    ensures HasBlank(ToLower(t)) <==> exists c | c in t :: c in " \t\n\r"
  {
    forall i | 0 <= i < |t| && t[i] in " \t\n\r" ensures ToLower(t)[i] == t[i] { }
    if c :| c in t && c in " \t\n\r" {
      var i :| 0 <= i < |t| && t[i] == c;
      assert ToLower(t)[i] == c && ToLower(t)[i] in ToLower(t);
    }
    if c :| c in ToLower(t) && (c == ' ' || c == '\t' || c == '\n' || c == '\r') {
      var i :| 0 <= i < |t| && ToLower(t)[i] == c;
      assert t[i] == c && t[i] in t;
    }
  }

  lemma LowerSplits(t: string, i: int)
    requires 0 <= i < |t| && t[i] == '/'
    ensures ToLower(t) == ToLower(t[..i]) + "/" + ToLower(t[i + 1..])
  {
  }

  lemma RepoAccepted(repo: string, i: int)
    requires OneSlash(TrimSpace(repo), i) && forall c | c in TrimSpace(repo) :: c !in " \t\n\r"
    ensures NormalizeRepo(repo) == Ok((ToLower(TrimSpace(repo)[..i]), ToLower(TrimSpace(repo)[i + 1..])))
  {
    var t := TrimSpace(repo);
    var owner, name := ToLower(t[..i]), ToLower(t[i + 1..]);
    var _, _ := TrimSpaceCuts(repo);
    LowerKeepsShape(t);
    LowerSplits(t, i);
    LowerKeepsMarks(t);
    PartsOfRepo(owner, name);
    LowerKeepsMarks(t[..i]);
    LowerKeepsMarks(t[i + 1..]);
    NormalizeRepoAccepts(repo, owner, name);
  }

  /** NormalizeRepo, character by character: the input without its outer space must
      hold one slash with something on both sides and no blank; then the two sides
      are returned with their ASCII letters lowered and nothing else changed. */
  lemma NormalizeRepoDecides(repo: string)
    ensures var t := TrimSpace(repo);
      NormalizeRepo(repo).Ok? <==>
        (exists i | 0 <= i < |t| :: OneSlash(t, i)) && (forall c | c in t :: c !in " \t\n\r")
    ensures var t := TrimSpace(repo);
      forall i | 0 <= i < |t| && OneSlash(t, i) && NormalizeRepo(repo).Ok? ::
        var (owner, name) := NormalizeRepo(repo).value;
        && IsLowered(t[..i], owner) && IsLowered(t[i + 1..], name)
        && (forall c | c in owner || c in name :: !('A' <= c <= 'Z'))
    ensures NormalizeRepo(repo).Err? ==> NormalizeRepo(repo) == Err(InvalidRepoFormat)
  {
    var t := TrimSpace(repo);
    LowerKeepsMarks(t);
    if NormalizeRepo(repo).Ok? {
      var (owner, name) := NormalizeRepo(repo).value;
      NormalizeRepoAccepts(repo, owner, name);
      assert ToLower(t) == owner + "/" + name;
      assert OneSlash(t, |owner|);
    }
    forall i | 0 <= i < |t| && OneSlash(t, i) && forall c | c in t :: c !in " \t\n\r"
      ensures NormalizeRepo(repo) == Ok((ToLower(t[..i]), ToLower(t[i + 1..])))
    {
      RepoAccepted(repo, i);
    }
    forall i | 0 <= i < |t| ensures IsLowered(t[..i], ToLower(t[..i])) && IsLowered(t[i + 1..], ToLower(t[i + 1..])) {
      ToLowerLetters(t[..i]);
      ToLowerLetters(t[i + 1..]);
    }
  }

  /** Normalising the key of a stored row gives its owner and name back. */
  lemma NormalizeRepoRoundTrip(owner: string, name: string)
    requires IsRepo(owner, name)
    ensures NormalizeRepo(owner + "/" + name) == Ok((owner, name))
  {
    TrimSpaceFixes(owner + "/" + name);
    PartsOfRepo(owner, name);
    NormalizeRepoAccepts(owner + "/" + name, owner, name);
  }

  /** The repository key determines its two halves. */
  lemma RepoKeyInjective(o1: string, n1: string, o2: string, n2: string)
    requires '/' !in o1 && '/' !in o2
    ensures o1 + "/" + n1 == o2 + "/" + n2 <==> o1 == o2 && n1 == n2
  {
    var s, t := o1 + "/" + n1, o2 + "/" + n2;
    if s == t {
      SplitAtFirst(o1, n1, '/');
      SplitAtFirst(o2, n2, '/');
      assert Split(s, '/')[0] == o1 && Split(t, '/')[0] == o2;
      assert s[|o1| + 1..] == n1 && t[|o1| + 1..] == n2;
    }
  }

  /** Without that shape two repositories can share a key. */
  lemma RepoKeyCollision()
    ensures exists o1, n1, o2, n2: string ::
      (o1, n1) != (o2, n2) && o1 + "/" + n1 == o2 + "/" + n2
  {
    assert ("a/b", "c") != ("a", "b/c");
    assert "a/b" + "/" + "c" == "a" + "/" + "b/c";
  }

  // ----- e-mail addresses -----

  /** The address syntax of section 3.4 of RFC 5322 is the caller's predicate. */
  function NormalizeEmail(email: string, parses: string -> bool): Result<string, AppError> {
    var normalized := ToLower(TrimSpace(email));
    if normalized == "" || !parses(normalized) then Err(InvalidEmail) else Ok(normalized)
  }

  /** A normalised address is a fixed point. */
  lemma NormalizeEmailRoundTrip(email: string, parses: string -> bool)
    requires NormalizeEmail(email, parses).Ok?
    ensures NormalizeEmail(NormalizeEmail(email, parses).value, parses) == NormalizeEmail(email, parses)
  {
    var _, _ := TrimSpaceCuts(email);
    LowerKeepsShape(TrimSpace(email));
    TrimSpaceFixes(ToLower(TrimSpace(email)));
  }

  /** NormalizeEmail, character by character: the address without its outer space and
      with its ASCII letters lowered, if it is one. */
  lemma NormalizeEmailDecides(email: string, parses: string -> bool)
    ensures exists n :: IsLowered(TrimSpace(email), n)
    ensures forall n | IsLowered(TrimSpace(email), n) ::
      && (forall c | c in n :: !('A' <= c <= 'Z'))
      && NormalizeEmail(email, parses) == if n == "" || !parses(n) then Err(InvalidEmail) else Ok(n)
  {
    ToLowerLetters(TrimSpace(email));
    assert IsLowered(TrimSpace(email), ToLower(TrimSpace(email)));
  }

  /** Spellings that differ in the case of ASCII letters are one repository and one address. */
  lemma NormalizingIgnoresCase(a: string, b: string, parses: string -> bool)
    requires SameButCase(a, b)
    ensures NormalizeRepo(a) == NormalizeRepo(b) && NormalizeEmail(a, parses) == NormalizeEmail(b, parses)
  {
    CaseIsLowered(a, b);
    TrimSpaceLowers(a);
    TrimSpaceLowers(b);
  }

  // ----- tokens -----

  newtype byte = b: int | 0 <= b < 256

  const HEX_DIGITS := "0123456789abcdef"

  predicate IsHexDigit(c: char) { '0' <= c <= '9' || 'a' <= c <= 'f' }

  /** The pattern ^[a-f0-9]{64}$ */
  predicate IsToken(s: string) { |s| == 64 && forall c | c in s :: IsHexDigit(c) }

  /** hex.EncodeToString */
  function HexEncode(bytes: seq<byte>): (s: string)
    ensures |s| == 2 * |bytes|
  {
    if bytes == [] then ""
    else [HEX_DIGITS[bytes[0] / 16], HEX_DIGITS[bytes[0] % 16]] + HexEncode(bytes[1..])
  }

  /** A token is well formed exactly when it comes from 32 bytes. */
  lemma {:induction false} HexEncodeIsHex(bytes: seq<byte>)
    ensures forall c | c in HexEncode(bytes) :: IsHexDigit(c)
    ensures IsToken(HexEncode(bytes)) <==> |bytes| == 32
  {
    if bytes != [] {
      HexEncodeIsHex(bytes[1..]);
    }
  }

  /** The pattern spelled out. */
  lemma TokenPattern(s: string)
    ensures IsToken(s) <==> |s| == 64 && forall i | 0 <= i < 64 :: s[i] in "0123456789abcdef"
  {
    assert forall c :: IsHexDigit(c) <==> c in "0123456789abcdef";
  }

  /** Two digits a byte, the high half first. */
  lemma {:induction false} HexEncodeAt(bytes: seq<byte>, k: nat)
    requires k < |bytes|
    ensures HexEncode(bytes)[2 * k] == "0123456789abcdef"[bytes[k] / 16]
    ensures HexEncode(bytes)[2 * k + 1] == "0123456789abcdef"[bytes[k] % 16]
  {
    if k > 0 { HexEncodeAt(bytes[1..], k - 1); }
  }

  function HexValue(c: char): (v: int)
    ensures IsHexDigit(c) ==> 0 <= v < 16
  {
    if '0' <= c <= '9' then c as int - '0' as int else c as int - 'a' as int + 10
  }

  /** hex.DecodeString on well-formed input */
  function HexDecode(s: string): seq<int> {
    if |s| < 2 then [] else [16 * HexValue(s[0]) + HexValue(s[1])] + HexDecode(s[2..])
  }

  lemma HexDigitRoundTrip(d: int)
    requires 0 <= d < 16
    ensures HexValue(HEX_DIGITS[d]) == d
  {
  }

  /** Decoding a token gives its bytes back, so different bytes make different tokens. */
  lemma {:induction false} HexRoundTrip(bytes: seq<byte>)
    ensures HexDecode(HexEncode(bytes)) == seq(|bytes|, i requires 0 <= i < |bytes| => bytes[i] as int)
  {
    if bytes != [] {
      var s := HexEncode(bytes);
      HexRoundTrip(bytes[1..]);
      HexDigitRoundTrip((bytes[0] / 16) as int);
      HexDigitRoundTrip((bytes[0] % 16) as int);
      assert s[2..] == HexEncode(bytes[1..]);
      assert HexDecode(s)[0] == bytes[0] as int;
    }
  }

  /** A well-formed token has no outer space. */
  lemma TokenIsTrimmed(s: string)
    requires IsToken(s)
    ensures TrimSpace(s) == s
  {
    assert s[0] in s && s[63] in s;
  }
}
