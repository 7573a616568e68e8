/** The primitive synthesizers: random integers, coin flips, alphanumeric
    strings and the one URL shape the pattern generator knows.

    The ambient `Math.random()` is replaced by an explicit oracle: `draws(k)`
    is the k-th random number the process will see, and every function here
    takes the position of its first draw and says how many it consumes. */
module Primitives {
  import opened Outcomes
  import opened Text

  type Draws = nat -> nat

  /** `getRandomInt(lo, hi)`: an integer in [lo, hi], from one draw. */
  function Draw(draws: Draws, pos: nat, lo: int, hi: int): (r: int)
    requires lo <= hi
    ensures lo <= r <= hi
  {
    lo + draws(pos) % (hi - lo + 1)
  }

  /** No value of the range is out of reach: some oracle yields each one. */
  lemma DrawCovers(pos: nat, lo: int, hi: int, r: int)
    requires lo <= r <= hi
    ensures Draw((k: nat) => (r - lo) as nat, pos, lo, hi) == r
  {
  }

  /** `getRandomBoolean()`: one draw decides. */
  function Coin(draws: Draws, pos: nat): bool {
    draws(pos) % 2 == 0
  }

  /** Both outcomes of a coin flip occur: some oracle yields each value. */
  lemma CoinCovers(pos: nat, b: bool)
    ensures Coin((k: nat) => if b then 0 else 1, pos) == b
  {
  }

  /** How many characters `getRandomString` picks from. */
  const AlphabetSize := 62

  /** `chars.charAt(k)` for `chars` = `a`..`z`, then `A`..`Z`, then `0`..`9`. */
  function AlphabetAt(k: nat): (c: char)
    requires k < AlphabetSize
    ensures IsAlnum(c)
    ensures k < 26 <==> IsLower(c)
    ensures 52 <= k <==> IsDigit(c)
  {
    if k < 26 then (97 + k) as char
    else if k < 52 then (65 + (k - 26)) as char
    else (48 + (k - 52)) as char
  }

  /** Which of the three runs of `chars` a position lies in. */
  function Run(k: nat): nat {
    if k < 26 then 0 else if k < 52 then 1 else 2
  }

  /** Within each run the characters ascend, so with the classes and
      `AlphabetComplete` the positions are fixed: `a`..`z`, `A`..`Z`, `0`..`9`. */
  lemma AlphabetAscends(j: nat, k: nat)
    requires j < k < AlphabetSize && Run(j) == Run(k)
    ensures AlphabetAt(j) < AlphabetAt(k)
  {
  }

  /** Every letter and digit is in the alphabet: together with the ensures
      of `AlphabetAt`, the alphabet is exactly `[a-zA-Z0-9]`. */
  lemma AlphabetComplete(c: char)
    requires IsAlnum(c)
    ensures exists k: nat :: k < AlphabetSize && AlphabetAt(k) == c
  {
    var k: nat := if IsLower(c) then c as int - 97 else if IsUpper(c) then c as int - 65 + 26 else c as int - 48 + 52;
    assert AlphabetAt(k) == c;
  }

  /** The string `getRandomString(n)` builds from the n draws starting at `pos`. */
  function RandomString(draws: Draws, pos: nat, n: nat): (s: string)
    ensures |s| == n && AllAlnum(s)
    decreases n
  {
    if n == 0 then ""
    else
      RandomString(draws, pos, n - 1) + [AlphabetAt(Draw(draws, pos + n - 1, 0, AlphabetSize - 1))]
  }

  /** `getRandomString(length)`: appends one random character per draw. */
  method GetRandomString(draws: Draws, pos: nat, length: nat) returns (s: string, next: nat)
    ensures s == RandomString(draws, pos, length) && next == pos + length
    ensures |s| == length && AllAlnum(s)
  {
    s := "";
    next := pos;
    var i := 0;
    while i < length
      invariant 0 <= i <= length
      invariant next == pos + i
      invariant s == RandomString(draws, pos, i)
    {
      s := s + [AlphabetAt(Draw(draws, next, 0, AlphabetSize - 1))];
      next := next + 1;
      i := i + 1;
    }
  }

  // ---------------------------------------------------------------------
  // The pattern-based string

  const Subdomains: seq<string> := ["api", "service", "data", "auth"]
  const Host := ".corezoid.com/api/1/json/public/"

  function Url(subdomain: string, digits: string, suffix: string): string {
    "https://" + (subdomain + (Host + (digits + ("/" + suffix))))
  }

  /** `generateStringFromPattern`: a subdomain, a number in [1000, 9999] and
      eight alphanumeric characters, from ten draws. */
  function PatternUrl(draws: Draws, pos: nat): string {
    var subdomain := Subdomains[Draw(draws, pos, 0, |Subdomains| - 1)];
    var digits := Draw(draws, pos + 1, 1000, 9999);
    Url(subdomain, NatToDecimal(digits), RandomString(draws, pos + 2, 8))
  }

  method GenerateStringFromPattern(draws: Draws, pos: nat) returns (s: string, next: nat)
    ensures s == PatternUrl(draws, pos) && next == pos + 10
  {
    var subdomain := Subdomains[Draw(draws, pos, 0, |Subdomains| - 1)];
    var digits := Draw(draws, pos + 1, 1000, 9999);
    var alphanum;
    alphanum, next := GetRandomString(draws, pos + 2, 8);
    s := Url(subdomain, NatToDecimal(digits), alphanum);
  }

  /** The three variable parts of a URL of the expected shape. */
  datatype UrlParts = UrlParts(subdomain: string, number: nat, suffix: string)

  /** A recogniser for
        ^https://[a-z]+\.corezoid\.com/api/1/json/public/\d+/[0-9a-zA-Z]+$
      returning the parts it matched. `[a-z]+` cannot swallow the `.` after
      it, nor `\d+` the `/`, so matching each class greedily is exact. */
  function ParseUrl(s: string): (r: Option<UrlParts>)
    ensures r.Some? ==> |r.value.subdomain| > 0 && AllLower(r.value.subdomain)
    ensures r.Some? ==> |r.value.suffix| > 0 && AllAlnum(r.value.suffix)
  {
    if |s| < 8 || s[..8] != "https://" then None else ParseHostPart(s[8..], Host)
  }

  /** `[a-z]+`, then the fixed text `host`, then the rest. */
  function ParseHostPart(t: string, host: string): (r: Option<UrlParts>)
    ensures r.Some? ==> |r.value.subdomain| > 0 && AllLower(r.value.subdomain)
    ensures r.Some? ==> |r.value.suffix| > 0 && AllAlnum(r.value.suffix)
  {
    var a := Span(t, IsLower);
    var u := t[a..];
    if a == 0 || |u| < |host| || u[..|host|] != host then None
    else WithSubdomain(t[..a], ParsePathPart(u[|host|..]))
  }

  /** The parts, once the subdomain and the path have been matched. */
  function WithSubdomain(subdomain: string, tail: Option<(nat, string)>): Option<UrlParts> {
    match tail
    case None => None
    case Some(tail) => Some(UrlParts(subdomain, tail.0, tail.1))
  }

  /** `\d+/[0-9a-zA-Z]+` up to the end of the text. */
  function ParsePathPart(u: string): (r: Option<(nat, string)>)
    ensures r.Some? ==> |r.value.1| > 0 && AllAlnum(r.value.1)
  {
    var b := Span(u, IsDigit);
    if b == 0 || b + 1 >= |u| || u[b] != '/' || !AllAlnum(u[b + 1..]) then None
    else Some((DecimalValue(u[..b]), u[b + 1..]))
  }

  lemma ParsePathPartOf(digits: string, suffix: string)
    requires |digits| > 0 && AllDigits(digits)
    requires |suffix| > 0 && AllAlnum(suffix)
    ensures ParsePathPart(digits + ("/" + suffix)) == Some((DecimalValue(digits), suffix))
  {
    var u := digits + ("/" + suffix);
    SpanOfConcat(digits, "/" + suffix, IsDigit);
    var b := |digits|;
    assert u[b] == '/' && u[b + 1..] == suffix && u[..b] == digits;
  }

  lemma ParseHostPartOf(subdomain: string, host: string, rest: string)
    requires |subdomain| > 0 && AllLower(subdomain)
    requires host != [] && !IsLower(host[0])
    ensures ParseHostPart(subdomain + (host + rest), host) == WithSubdomain(subdomain, ParsePathPart(rest))
  {
    var t := subdomain + (host + rest);
    var a := |subdomain|;
    SpanOfConcat(subdomain, host + rest, IsLower);
    assert t[..a] == subdomain && t[a..] == host + rest;
    assert (host + rest)[..|host|] == host && (host + rest)[|host|..] == rest;
  }

  /** The recogniser takes apart exactly what `Url` put together. */
  lemma ParseUrlOfUrl(subdomain: string, digits: string, suffix: string)
    requires |subdomain| > 0 && AllLower(subdomain)
    requires |digits| > 0 && AllDigits(digits)
    requires |suffix| > 0 && AllAlnum(suffix)
    ensures ParseUrl(Url(subdomain, digits, suffix)) == Some(UrlParts(subdomain, DecimalValue(digits), suffix))
  {
    var rest := digits + ("/" + suffix);
    var t := subdomain + (Host + rest);
    var s := Url(subdomain, digits, suffix);
    assert s[..8] == "https://" && s[8..] == t;
    ParsePathPartOf(digits, suffix);
    ParseHostPartOf(subdomain, Host, rest);
  }

  /** What `ParsePathPart` accepts is digits, `/` and the suffix returned,
      with the digits denoting the number returned. */
  lemma PathPartSound(u: string)
    requires ParsePathPart(u).Some?
    ensures var b := Span(u, IsDigit);
      && b > 0 && AllDigits(u[..b]) && DecimalValue(u[..b]) == ParsePathPart(u).value.0
      && u == u[..b] + ("/" + ParsePathPart(u).value.1)
  {
    var b := Span(u, IsDigit);
    assert u == u[..b] + ("/" + u[b + 1..]);
  }

  /** A text that shows `mid` after its first `a` characters is those
      characters, `mid` and what follows. */
  lemma SplitAround(t: string, a: nat, mid: string)
    requires a <= |t| && |mid| <= |t[a..]| && t[a..][..|mid|] == mid
    ensures t == t[..a] + (mid + t[a..][|mid|..])
  {
    assert t[a..] == mid + t[a..][|mid|..];
  }

  /** What `ParseHostPart` accepts is the subdomain returned, `host` and a
      tail that `ParsePathPart` accepts. */
  lemma HostPartSound(t: string, host: string)
    requires ParseHostPart(t, host).Some?
    ensures var a := Span(t, IsLower);
      var v := t[a..][|host|..];
      && t == t[..a] + (host + v)
      && ParseHostPart(t, host) == WithSubdomain(t[..a], ParsePathPart(v))
  {
    SplitAround(t, Span(t, IsLower), host);
  }

  /** The recogniser accepts nothing but what `Url` builds: every text it
      parses is `Url` of the parts it returns, with some decimal numeral
      denoting the number. */
  lemma UrlOfParseUrl(s: string)
    requires ParseUrl(s).Some?
    ensures exists digits: string ::
              && |digits| > 0 && AllDigits(digits)
              && DecimalValue(digits) == ParseUrl(s).value.number
              && s == Url(ParseUrl(s).value.subdomain, digits, ParseUrl(s).value.suffix)
  {
    var t := s[8..];
    SplitAround(s, 0, "https://");
    assert s[..0] == [] && s[0..] == s;
    HostPartSound(t, Host);
    var a := Span(t, IsLower);
    var v := t[a..][|Host|..];
    PathPartSound(v);
    var digits := v[..Span(v, IsDigit)];
    var suffix := ParsePathPart(v).value.1;
    assert ParseUrl(s) == Some(UrlParts(t[..a], DecimalValue(digits), suffix));
    assert s == Url(t[..a], digits, suffix);
  }

  /** Every pattern string has the shape the test expects, with a subdomain
      from the fixed list, a four-digit number and an eight-character suffix. */
  lemma PatternUrlShape(draws: Draws, pos: nat)
    ensures var p := ParseUrl(PatternUrl(draws, pos));
      && p.Some?
      && p.value.subdomain in Subdomains
      && 1000 <= p.value.number <= 9999 && |NatToDecimal(p.value.number)| == 4
      && |p.value.suffix| == 8 && AllAlnum(p.value.suffix)
  {
    var i := Draw(draws, pos, 0, |Subdomains| - 1);
    SubdomainLower(i);
    var n := Draw(draws, pos + 1, 1000, 9999);
    var digits := NatToDecimal(n);
    var suffix := RandomString(draws, pos + 2, 8);
    assert PatternUrl(draws, pos) == Url(Subdomains[i], digits, suffix);
    DecimalOfNat(n);
    FourDigits(n);
    ParseUrlOfUrl(Subdomains[i], digits, suffix);
  }

  /** Every subdomain of the list is a non-empty lower-case word. */
  lemma SubdomainLower(i: nat)
    requires i < |Subdomains|
    ensures |Subdomains[i]| > 0 && AllLower(Subdomains[i])
  {
    assert i == 0 || i == 1 || i == 2 || i == 3;
  }
}
