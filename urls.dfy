/**
 * The pure helpers of the shortener (talisik/core/shortener.py): URL
 * validation, random code generation and trimming of the base URL.
 */
module Urls {
  import opened Wrappers

  predicate IsAsciiLetter(c: char) { 'a' <= c <= 'z' || 'A' <= c <= 'Z' }
  predicate IsAsciiDigit(c: char) { '0' <= c <= '9' }
  predicate IsAlphanumeric(c: char) { IsAsciiLetter(c) || IsAsciiDigit(c) }

  // ---------------------------------------------------------------------------
  // URL validation: `urlparse(url)` reduced to its scheme and network location

  /** Characters allowed in a URL scheme. */
  predicate IsSchemeChar(c: char) { IsAlphanumeric(c) || c == '+' || c == '-' || c == '.' }

  /** A scheme: an ASCII letter followed by scheme characters. */
  predicate IsSchemeName(s: string) {
    |s| > 0 && IsAsciiLetter(s[0]) && forall k :: 0 <= k < |s| ==> IsSchemeChar(s[k])
  }

  /** Characters that end the network location. */
  predicate IsNetlocDelim(c: char) { c == '/' || c == '?' || c == '#' }

  /** `str.find`: index of the first occurrence of `c`, or -1. */
  function Find(s: string, c: char): (r: int)
    ensures -1 <= r < |s|
    ensures r >= 0 ==> s[r] == c && forall j :: 0 <= j < r ==> s[j] != c
    ensures r == -1 ==> forall j :: 0 <= j < |s| ==> s[j] != c
  {
    if |s| == 0 then -1
    else if s[0] == c then 0
    else
      var r := Find(s[1..], c);
      if r == -1 then -1 else r + 1
  }

  /** Scheme and remainder: the scheme is what precedes the first ':' when that is a scheme name. */
  function SplitScheme(url: string): (p: (string, string))
    ensures p.0 != "" ==> IsSchemeName(p.0) && url == p.0 + ":" + p.1 && ':' !in p.0
    ensures p.0 == "" ==> p.1 == url
    ensures p.0 != "" <==> Find(url, ':') > 0 && IsSchemeName(url[..Find(url, ':')])
  {
    var i := Find(url, ':');
    if i > 0 && IsSchemeName(url[..i]) then
      assert url == url[..i] + ":" + url[i + 1..];
      (url[..i], url[i + 1..])
    else ("", url)
  }

  /** The longest prefix containing no delimiter. */
  function UntilDelim(s: string): (r: string)
    ensures |r| <= |s| && r == s[..|r|]
    ensures forall k :: 0 <= k < |r| ==> !IsNetlocDelim(r[k])
    ensures |r| < |s| ==> IsNetlocDelim(s[|r|])
  {
    if |s| == 0 || IsNetlocDelim(s[0]) then ""
    else
      var rest := UntilDelim(s[1..]);
      assert ([s[0]] + rest)[1..] == rest;
      [s[0]] + rest
  }

  /** The network location: after "//", up to the first '/', '?' or '#'. */
  function Netloc(url: string): (n: string)
    ensures forall k :: 0 <= k < |n| ==> !IsNetlocDelim(n[k])
    ensures n != "" ==>
      var rest := SplitScheme(url).1;
      && |rest| >= 2 + |n| && rest[..2] == "//" && rest[2..2 + |n|] == n
      && (|rest| == 2 + |n| || IsNetlocDelim(rest[2 + |n|]))
    ensures n != "" <==>
      var rest := SplitScheme(url).1;
      |rest| > 2 && rest[..2] == "//" && !IsNetlocDelim(rest[2])
  {
    var rest := SplitScheme(url).1;
    if |rest| >= 2 && rest[..2] == "//" then
      var n := UntilDelim(rest[2..]);
      assert n != "" ==> |rest| > 2 && !IsNetlocDelim(rest[2..][0]) by {
        if n != "" { UntilDelimStart(rest[2..]); }
      }
      assert |rest| > 2 ==> rest[2..][0] == rest[2];
      n
    else ""
  }

  /**
   * `_is_valid_url`: both a scheme and a network location are present, so the
   * URL starts with the scheme, "://" and the network location.
   */
  function IsValidUrl(url: string): (v: bool)
    ensures v ==>
      var scheme := SplitScheme(url).0;
      var host := Netloc(url);
      && IsSchemeName(scheme) && host != ""
      && |url| >= |scheme| + 3 + |host|
      && url[..|scheme|] == scheme
      && url[|scheme|..|scheme| + 3] == "://"
      && url[|scheme| + 3..|scheme| + 3 + |host|] == host
  {
    var scheme := SplitScheme(url).0;
    var host := Netloc(url);
    if scheme != "" && host != "" then
      var rest := SplitScheme(url).1;
      assert url[|scheme| + 1..] == rest;
      assert url[|scheme|..|scheme| + 3] == [':'] + rest[..2];
      assert url[|scheme| + 3..|scheme| + 3 + |host|] == rest[2..2 + |host|];
      true
    else false
  }

  /** A URL has the shape `scheme://host...` with the scheme ending at position i. */
  predicate HasSchemeAndHostAt(url: string, i: nat) {
    && 0 < i && i + 3 < |url|
    && IsSchemeName(url[..i])
    && url[i..i + 3] == "://"
    && !IsNetlocDelim(url[i + 3])
  }

  /** The scheme ends at the first ':' of a URL of that shape. */
  lemma SchemeEndsAtFirstColon(url: string, i: nat)
    requires HasSchemeAndHostAt(url, i)
    ensures Find(url, ':') == i
  {
    assert url[i] == url[i..i + 3][0] == ':';
    forall j | 0 <= j < i ensures url[j] != ':' {
      assert url[j] == url[..i][j];
    }
  }

  /** A URL of the shape `scheme://h...` is valid. */
  lemma ShapeIsValid(url: string, i: nat)
    requires HasSchemeAndHostAt(url, i)
    ensures IsValidUrl(url)
  {
    SchemeEndsAtFirstColon(url, i);
    var rest := url[i + 1..];
    assert rest[0] == url[i..i + 3][1] && rest[1] == url[i..i + 3][2];
    assert rest[..2] == "//";
    assert rest[2..][0] == url[i + 3];
  }

  /** A non-empty network location starts with a character that is no delimiter. */
  lemma UntilDelimStart(s: string)
    requires UntilDelim(s) != ""
    ensures |s| > 0 && !IsNetlocDelim(s[0])
  {
    var r := UntilDelim(s);
    assert r[0] == s[..|r|][0] == s[0];
  }

  /** The remainder after the scheme starts with "//" and a host character. */
  lemma AfterSchemeShape(url: string, i: nat)
    requires i < |url|
    requires var rest := url[i + 1..]; |rest| >= 2 && rest[..2] == "//" && UntilDelim(rest[2..]) != ""
    ensures i + 3 < |url| && url[i + 1] == '/' && url[i + 2] == '/' && !IsNetlocDelim(url[i + 3])
  {
    var rest := url[i + 1..];
    assert url[i + 1] == rest[..2][0] && url[i + 2] == rest[..2][1];
    UntilDelimStart(rest[2..]);
    assert rest[2..][0] == url[i + 3];
  }

  /** A valid URL has the shape `scheme://h...` with the scheme before the first ':'. */
  lemma ValidHasShape(url: string)
    requires IsValidUrl(url)
    ensures HasSchemeAndHostAt(url, Find(url, ':'))
  {
    var i := Find(url, ':');
    SchemeFound(url);
    HostFound(url);
    AfterSchemeShape(url, i);
    ColonSlashSlash(url, i);
  }

  /** A scheme was split off: it is a scheme name ending at the first ':'. */
  lemma SchemeFound(url: string)
    requires SplitScheme(url).0 != ""
    ensures var i := Find(url, ':');
      i > 0 && IsSchemeName(url[..i]) && SplitScheme(url).1 == url[i + 1..]
  {
  }

  /** A network location was found: the remainder starts with "//" and a host character. */
  lemma HostFound(url: string)
    requires Netloc(url) != ""
    ensures var rest := SplitScheme(url).1;
      |rest| >= 2 && rest[..2] == "//" && UntilDelim(rest[2..]) != ""
  {
  }

  lemma ColonSlashSlash(url: string, i: nat)
    requires i + 3 <= |url| && url[i] == ':' && url[i + 1] == '/' && url[i + 2] == '/'
    ensures url[i..i + 3] == "://"
  {
  }

  /**
   * A URL is valid exactly when it starts with a scheme name, then "://", then
   * a character that does not end the host at once.
   */
  lemma ValidUrlShape(url: string)
    ensures IsValidUrl(url) <==> Find(url, ':') >= 0 && HasSchemeAndHostAt(url, Find(url, ':'))
  {
    if IsValidUrl(url) { ValidHasShape(url); }
    if Find(url, ':') >= 0 && HasSchemeAndHostAt(url, Find(url, ':')) { ShapeIsValid(url, Find(url, ':')); }
  }

  /** The well-formed URL the unit tests shorten. */
  lemma ExampleUrlIsValid()
    ensures IsValidUrl("https://example.com")
  {
    var s := "https://example.com";
    assert s[..5] == "https";
    assert s[5..8] == "://";
    assert HasSchemeAndHostAt(s, 5);
    ShapeIsValid(s, 5);
  }

  /** The malformed URL the unit tests reject: it has no scheme. */
  lemma NotAUrlIsInvalid()
    ensures !IsValidUrl("not-a-url")
  {
    var s := "not-a-url";
    assert forall j :: 0 <= j < |s| ==> s[j] != ':';
    assert Find(s, ':') == -1;
  }

  // ---------------------------------------------------------------------------
  // Code generation

  function AsciiLowercase(): string { seq(26, k requires 0 <= k < 26 => ('a' as int + k) as char) }
  function AsciiUppercase(): string { seq(26, k requires 0 <= k < 26 => ('A' as int + k) as char) }
  function Digits(): string { seq(10, k requires 0 <= k < 10 => ('0' as int + k) as char) }

  /** `string.ascii_letters + string.digits`: 62 characters. */
  function Alphabet(): string { AsciiLowercase() + AsciiUppercase() + Digits() }

  /** Position of an alphanumeric character in the alphabet. */
  function AlphabetIndex(c: char): (k: nat)
    requires IsAlphanumeric(c)
    ensures k < |Alphabet()| && Alphabet()[k] == c
  {
    if 'a' <= c <= 'z' then
      var k := c as int - 'a' as int; assert Alphabet()[k] == AsciiLowercase()[k]; k
    else if 'A' <= c <= 'Z' then
      var k := c as int - 'A' as int; assert Alphabet()[26 + k] == AsciiUppercase()[k]; 26 + k
    else
      var k := c as int - '0' as int; assert Alphabet()[52 + k] == Digits()[k]; 52 + k
  }

  /** The alphabet holds exactly the ASCII letters and digits, each once. */
  lemma AlphabetIsAlphanumerics()
    ensures |Alphabet()| == 62
    ensures forall k :: 0 <= k < |Alphabet()| ==> IsAlphanumeric(Alphabet()[k])
    ensures forall c :: IsAlphanumeric(c) <==> c in Alphabet()
    ensures forall j, k :: 0 <= j < k < |Alphabet()| ==> Alphabet()[j] != Alphabet()[k]
  {
    forall k | 0 <= k < |Alphabet()| ensures IsAlphanumeric(Alphabet()[k]) && AlphabetIndex(Alphabet()[k]) == k {
      if k < 26 { assert Alphabet()[k] == AsciiLowercase()[k]; }
      else if k < 52 { assert Alphabet()[k] == AsciiUppercase()[k - 26]; }
      else { assert Alphabet()[k] == Digits()[k - 52]; }
    }
    forall c | IsAlphanumeric(c) ensures c in Alphabet() { var k := AlphabetIndex(c); }
  }

  /** `length or default_code_length`: an absent or zero length falls back to the default. */
  function CodeLength(length: Option<int>, defaultLength: int): (n: int)
    ensures length.Some? && length.value != 0 ==> n == length.value
    ensures length.None? || length.value == 0 ==> n == defaultLength
  {
    if length.Some? && length.value != 0 then length.value else defaultLength
  }

  /** The number of iterations of `range(n)`. */
  function NonNegative(n: int): nat { if n < 0 then 0 else n }

  /**
   * `_generate_code`: one character per draw of the random source, `draw(k)`
   * being the k-th choice; `range(n)` is empty when n is not positive.
   */
  function GenerateCode(length: Option<int>, defaultLength: int, draw: nat -> nat): (code: string)
    ensures |code| == NonNegative(CodeLength(length, defaultLength))
    ensures forall k :: 0 <= k < |code| ==> IsAlphanumeric(code[k])
  {
    AlphabetIsAlphanumerics();
    seq(NonNegative(CodeLength(length, defaultLength)), k requires 0 <= k => Alphabet()[draw(k) % |Alphabet()|])
  }

  /** The draws that make the generator produce `code`. */
  function DrawsFor(code: string): nat -> nat {
    (k: nat) => if k < |code| && IsAlphanumeric(code[k]) then AlphabetIndex(code[k]) else 0
  }

  /** Every alphanumeric string of the configured length is a possible generated code. */
  lemma EveryCodeCanBeGenerated(code: string)
    requires forall k :: 0 <= k < |code| ==> IsAlphanumeric(code[k])
    ensures GenerateCode(None, |code|, DrawsFor(code)) == code
  {
    var g := GenerateCode(None, |code|, DrawsFor(code));
    assert |g| == |code|;
    forall k | 0 <= k < |code| ensures g[k] == code[k] {
      var j := AlphabetIndex(code[k]);
      assert DrawsFor(code)(k) == j;
      assert j % |Alphabet()| == j;
      assert g[k] == Alphabet()[j];
    }
  }

  // ---------------------------------------------------------------------------
  // Base URL

  /** `rstrip('/')`: the input without its trailing slashes. */
  function StripTrailingSlashes(s: string): (r: string)
    ensures |r| <= |s| && r == s[..|r|]
    ensures |r| == 0 || r[|r| - 1] != '/'
    ensures forall k :: |r| <= k < |s| ==> s[k] == '/'
  {
    if |s| > 0 && s[|s| - 1] == '/' then
      var r := StripTrailingSlashes(s[..|s| - 1]);
      assert s[..|s| - 1][..|r|] == s[..|r|];
      r
    else s
  }

  /** Stripping twice is stripping once, and a stripped base URL is kept as it is. */
  lemma StripIdempotent(s: string)
    ensures StripTrailingSlashes(StripTrailingSlashes(s)) == StripTrailingSlashes(s)
    ensures |s| == 0 || s[|s| - 1] != '/' ==> StripTrailingSlashes(s) == s
  {
  }
}
