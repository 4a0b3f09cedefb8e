/** PKCE material (RFC 7636): random strings over the unreserved alphabet for the
    code verifier, `state` and `nonce`, and the S256 code challenge, which is the
    SHA-256 digest of the verifier in unpadded base64url. The random source and
    SHA-256 are inputs; everything done with their output is modelled. */
module Pkce {

  newtype byte = x: int | 0 <= x < 256

  /** Character `k` of the run `A`..`Z`, `a`..`z`, `0`..`9` that the charset and
      both base64 alphabets start with. */
  function AlnumChar(k: int): (c: char)
    requires 0 <= k < 62
  {
    if k < 26 then ('A' as int + k) as char
    else if k < 52 then ('a' as int + k - 26) as char
    else ('0' as int + k - 52) as char
  }

  const Uppercase: string := "ABCDEFGHIJKLMNOPQRSTUVWXYZ"
  const Lowercase: string := "abcdefghijklmnopqrstuvwxyz"
  const Digits: string := "0123456789"
  const Alnum: string := Uppercase + Lowercase + Digits

  /** The 66 characters the generator draws from (lib/pkce.ts:4-5). */
  const Charset: string := Alnum + "-._~"

  /** `unreserved = ALPHA / DIGIT / "-" / "." / "_" / "~"`, section 4.1 of RFC 7636. */
  predicate IsUnreserved(c: char) {
    ('A' <= c <= 'Z') || ('a' <= c <= 'z') || ('0' <= c <= '9')
    || c == '-' || c == '.' || c == '_' || c == '~'
  }

  predicate AllUnreserved(s: string) {
    forall i :: 0 <= i < |s| ==> IsUnreserved(s[i])
  }

  lemma UppercaseAt(k: int)
    requires 0 <= k < 26
    ensures Uppercase[k] == AlnumChar(k)
  {
  }

  lemma LowercaseAt(k: int)
    requires 0 <= k < 26
    ensures Lowercase[k] == AlnumChar(k + 26)
  {
  }

  lemma DigitsAt(k: int)
    requires 0 <= k < 10
    ensures Digits[k] == AlnumChar(k + 52)
  {
  }

  lemma AlnumPrefix(tail: string, k: int)
    requires 0 <= k < 62
    ensures |Alnum| == 62 && (Alnum + tail)[k] == AlnumChar(k)
  {
    var ul := Uppercase + Lowercase;
    assert Alnum == ul + Digits;
    assert (Alnum + tail)[k] == Alnum[k];
    if k < 26 {
      UppercaseAt(k);
      assert Alnum[k] == ul[k] == Uppercase[k];
    } else if k < 52 {
      LowercaseAt(k - 26);
      assert Alnum[k] == ul[k] == Lowercase[k - 26];
    } else {
      DigitsAt(k - 52);
      assert Alnum[k] == Digits[k - 52];
    }
  }

  /** Every charset character is unreserved. */
  lemma CharsetChars(k: int)
    requires 0 <= k < |Charset|
    ensures |Charset| == 66 && IsUnreserved(Charset[k])
  {
    if k < 62 {
      AlnumPrefix("-._~", k);
    } else {
      assert Charset[k] == "-._~"[k - 62];
    }
  }

  /** Every unreserved character is in the charset. */
  lemma UnreservedInCharset(c: char)
    requires IsUnreserved(c)
    ensures c in Charset
  {
    var k := if 'A' <= c <= 'Z' then c as int - 'A' as int
             else if 'a' <= c <= 'z' then 26 + c as int - 'a' as int
             else if '0' <= c <= '9' then 52 + c as int - '0' as int
             else if c == '-' then 62 else if c == '.' then 63 else if c == '_' then 64 else 65;
    if k < 62 {
      AlnumPrefix("-._~", k);
    } else {
      assert Charset[k] == "-._~"[k - 62];
    }
    assert Charset[k] == c;
  }

  /** The charset is exactly the unreserved set of RFC 7636. */
  lemma CharsetIsUnreserved()
    ensures |Charset| == 66
    ensures forall k :: 0 <= k < |Charset| ==> IsUnreserved(Charset[k])
    ensures forall c :: IsUnreserved(c) ==> c in Charset
  {
    CharsetChars(0);
    forall k | 0 <= k < |Charset| ensures IsUnreserved(Charset[k]) {
      CharsetChars(k);
    }
    forall c | IsUnreserved(c) ensures c in Charset {
      UnreservedInCharset(c);
    }
  }

  /** `generateRandomString(values.length)` where `values` is what
      `crypto.getRandomValues` put into the buffer: one character per byte,
      `charset[x % 66]`. */
  function GenerateRandomString(values: seq<byte>): (r: string)
    ensures |r| == |values|
    ensures forall i :: 0 <= i < |values| ==> r[i] == Charset[values[i] as int % |Charset|]
  {
    seq(|values|, i requires 0 <= i < |values| => Charset[values[i] as int % |Charset|])
  }

  /** Every generated string uses only unreserved characters. */
  lemma RandomStringUnreserved(values: seq<byte>)
    ensures AllUnreserved(GenerateRandomString(values))
  {
    CharsetIsUnreserved();
  }

  /** `generateState()`: 32 random bytes become a 32-character state. */
  function GenerateState(random: seq<byte>): (r: string)
    requires |random| == 32
    ensures |r| == 32 && AllUnreserved(r)
  {
    RandomStringUnreserved(random);
    GenerateRandomString(random)
  }

  /** `generateNonce()`, the same shape as the state. */
  function GenerateNonce(random: seq<byte>): (r: string)
    requires |random| == 32
    ensures |r| == 32 && AllUnreserved(r)
  {
    RandomStringUnreserved(random);
    GenerateRandomString(random)
  }

  /** `generateCodeVerifier()`: 64 characters, inside the 43..128 range that
      section 4.1 of RFC 7636 allows. */
  function GenerateCodeVerifier(random: seq<byte>): (r: string)
    requires |random| == 64
    ensures |r| == 64 && 43 <= |r| <= 128 && AllUnreserved(r)
  {
    RandomStringUnreserved(random);
    GenerateRandomString(random)
  }

  // ---------------------------------------------------------------------------
  // Code challenge

  /** The base64 alphabet of section 4 of RFC 4648, which `btoa` uses. */
  const Base64Alphabet: string := Alnum + "+/"

  /** The base64url alphabet of section 5 of RFC 4648. */
  const Base64UrlAlphabet: string := Alnum + "-_"

  /** Membership in the base64url alphabet. */
  predicate IsUrlChar(c: char) {
    ('A' <= c <= 'Z') || ('a' <= c <= 'z') || ('0' <= c <= '9') || c == '-' || c == '_'
  }

  /** Base64 digit values of a byte group (section 4 of RFC 4648). */
  function Digit0(b0: byte): (d: int) ensures 0 <= d < 64 { b0 as int / 4 }
  function Digit1(b0: byte, b1: byte): (d: int) ensures 0 <= d < 64 { (b0 as int % 4) * 16 + b1 as int / 16 }
  function Digit2(b1: byte, b2: byte): (d: int) ensures 0 <= d < 64 { (b1 as int % 16) * 4 + b2 as int / 64 }
  function Digit3(b2: byte): (d: int) ensures 0 <= d < 64 { b2 as int % 64 }

  /** `btoa(String.fromCharCode(...bytes))`: each byte becomes one Latin-1
      character, so this is padded base64 of the bytes. */
  function Base64(b: seq<byte>): (r: string)
    decreases |b|
  {
    var A := Base64Alphabet;
    if |b| == 0 then ""
    else if |b| == 1 then [A[Digit0(b[0])], A[Digit1(b[0], 0)], '=', '=']
    else if |b| == 2 then [A[Digit0(b[0])], A[Digit1(b[0], b[1])], A[Digit2(b[1], 0)], '=']
    else
      [A[Digit0(b[0])], A[Digit1(b[0], b[1])], A[Digit2(b[1], b[2])], A[Digit3(b[2])]] + Base64(b[3..])
  }

  /** `s.replace(/x/g, y)`. */
  function ReplaceAll(s: string, x: char, y: char): (r: string)
    ensures |r| == |s|
    ensures forall i :: 0 <= i < |s| ==> r[i] == (if s[i] == x then y else s[i])
  {
    seq(|s|, i requires 0 <= i < |s| => if s[i] == x then y else s[i])
  }

  /** `s.replace(/=+$/, '')`: drop the run of `=` at the end. */
  function StripTrailingPadding(s: string): (r: string)
    ensures r <= s
    ensures r == [] || r[|r| - 1] != '='
    ensures forall i :: |r| <= i < |s| ==> s[i] == '='
    decreases |s|
  {
    if s != [] && s[|s| - 1] == '=' then StripTrailingPadding(s[..|s| - 1]) else s
  }

  /** The post-processing of `generateCodeChallenge` (lib/pkce.ts:16-19) applied
      to a digest. */
  function EncodeChallenge(digest: seq<byte>): string {
    StripTrailingPadding(ReplaceAll(ReplaceAll(Base64(digest), '+', '-'), '/', '_'))
  }

  /** Reference definition: unpadded base64url (section 5 of RFC 4648, as
      Appendix A of RFC 7636 describes it), written directly over the URL alphabet. */
  function Base64UrlNoPad(b: seq<byte>): (r: string)
    decreases |b|
  {
    var U := Base64UrlAlphabet;
    if |b| == 0 then ""
    else if |b| == 1 then [U[Digit0(b[0])], U[Digit1(b[0], 0)]]
    else if |b| == 2 then [U[Digit0(b[0])], U[Digit1(b[0], b[1])], U[Digit2(b[1], 0)]]
    else
      [U[Digit0(b[0])], U[Digit1(b[0], b[1])], U[Digit2(b[1], b[2])], U[Digit3(b[2])]] + Base64UrlNoPad(b[3..])
  }

  /** The two `replace` calls, character by character. */
  function UrlChar(c: char): char {
    if c == '+' then '-' else if c == '/' then '_' else c
  }

  function Url(s: string): (r: string)
    ensures |r| == |s|
  {
    seq(|s|, i requires 0 <= i < |s| => UrlChar(s[i]))
  }

  lemma ReplacesAreUrl(s: string)
    ensures ReplaceAll(ReplaceAll(s, '+', '-'), '/', '_') == Url(s)
  {
  }

  lemma UrlConcat(a: string, b: string)
    ensures Url(a + b) == Url(a) + Url(b)
  {
  }

  lemma UrlQuad(c0: char, c1: char, c2: char, c3: char)
    ensures Url([c0, c1, c2, c3]) == [UrlChar(c0), UrlChar(c1), UrlChar(c2), UrlChar(c3)]
  {
  }

  /** The rewriting maps position k of the standard alphabet to position k of
      the URL alphabet, whose characters are all base64url characters. */
  lemma UrlAlphabet(k: int)
    requires 0 <= k < 64
    ensures UrlChar(Base64Alphabet[k]) == Base64UrlAlphabet[k]
    ensures IsUrlChar(Base64UrlAlphabet[k])
  {
    if k < 62 {
      AlnumPrefix("+/", k);
      AlnumPrefix("-_", k);
    }
  }

  function Padding(n: nat): string {
    if n % 3 == 1 then "==" else if n % 3 == 2 then "=" else ""
  }

  /** Padded base64 with `+` and `/` rewritten is the unpadded base64url string
      followed by the `=` padding. */
  lemma {:induction false} RewrittenBase64(b: seq<byte>)
    ensures Url(Base64(b)) == Base64UrlNoPad(b) + Padding(|b|)
    decreases |b|
  {
    if |b| >= 3 {
      RewrittenBase64(b[3..]);
      RewrittenGroup(b);
    } else if |b| == 2 {
      var A := Base64Alphabet;
      var x0, x1, x2 := Digit0(b[0]), Digit1(b[0], b[1]), Digit2(b[1], 0);
      UrlAlphabet(x0); UrlAlphabet(x1); UrlAlphabet(x2);
      UrlQuad(A[x0], A[x1], A[x2], '=');
    } else if |b| == 1 {
      var A := Base64Alphabet;
      var x0, x1 := Digit0(b[0]), Digit1(b[0], 0);
      UrlAlphabet(x0); UrlAlphabet(x1);
      UrlQuad(A[x0], A[x1], '=', '=');
    }
  }

  /** One full three-byte group of the induction in `RewrittenBase64`. */
  lemma RewrittenGroup(b: seq<byte>)
    requires |b| >= 3
    requires Url(Base64(b[3..])) == Base64UrlNoPad(b[3..]) + Padding(|b[3..]|)
    ensures Url(Base64(b)) == Base64UrlNoPad(b) + Padding(|b|)
  {
    var A, U := Base64Alphabet, Base64UrlAlphabet;
    var rest := b[3..];
    var x0, x1 := Digit0(b[0]), Digit1(b[0], b[1]);
    var x2, x3 := Digit2(b[1], b[2]), Digit3(b[2]);
    var g := [A[x0], A[x1], A[x2], A[x3]];
    var gu := [U[x0], U[x1], U[x2], U[x3]];
    assert Base64(b) == g + Base64(rest);
    assert Base64UrlNoPad(b) == gu + Base64UrlNoPad(rest);
    UrlAlphabet(x0); UrlAlphabet(x1); UrlAlphabet(x2); UrlAlphabet(x3);
    UrlQuad(A[x0], A[x1], A[x2], A[x3]);
    assert Url(g) == gu;
    UrlConcat(g, Base64(rest));
    PaddingPeriodic(|rest|);
    assert Padding(|rest|) == Padding(|b|);
    assert Url(Base64(b)) == gu + (Base64UrlNoPad(rest) + Padding(|b|));
  }

  lemma PaddingPeriodic(n: nat)
    ensures Padding(n + 3) == Padding(n)
  {
    assert (n + 3) % 3 == n % 3;
  }

  /** Unpadded base64url output consists of base64url characters only and has
      length ceil(4n/3). */
  lemma {:induction false} NoPadAlphabet(b: seq<byte>)
    ensures forall i :: 0 <= i < |Base64UrlNoPad(b)| ==> IsUrlChar(Base64UrlNoPad(b)[i])
    ensures |Base64UrlNoPad(b)| == (4 * |b| + 2) / 3
    decreases |b|
  {
    var U := Base64UrlAlphabet;
    if |b| >= 3 {
      NoPadAlphabet(b[3..]);
      UrlAlphabet(Digit0(b[0])); UrlAlphabet(Digit1(b[0], b[1]));
      UrlAlphabet(Digit2(b[1], b[2])); UrlAlphabet(Digit3(b[2]));
      var r := Base64UrlNoPad(b);
      forall i | 4 <= i < |r| ensures IsUrlChar(r[i]) {
        assert r[i] == Base64UrlNoPad(b[3..])[i - 4];
      }
    } else if |b| == 2 {
      UrlAlphabet(Digit0(b[0])); UrlAlphabet(Digit1(b[0], b[1])); UrlAlphabet(Digit2(b[1], 0));
    } else if |b| == 1 {
      UrlAlphabet(Digit0(b[0])); UrlAlphabet(Digit1(b[0], 0));
    }
  }

  /** Stripping the trailing `=` run removes exactly the padding. */
  lemma StripPadding(x: string, n: nat)
    requires x == [] || x[|x| - 1] != '='
    ensures StripTrailingPadding(x + Padding(n)) == x
  {
    StripClean(x);
    StripOne(x);
    var p := Padding(n);
    if p == "==" {
      assert x + p == (x + "=") + "=";
      StripOne(x + "=");
    } else if p == "" {
      assert x + p == x;
    }
  }

  /** A string not ending in `=` is left alone. */
  lemma StripClean(x: string)
    requires x == [] || x[|x| - 1] != '='
    ensures StripTrailingPadding(x) == x
  {
  }

  /** One trailing `=` is always stripped. */
  lemma StripOne(y: string)
    ensures StripTrailingPadding(y + "=") == StripTrailingPadding(y)
  {
    assert (y + "=")[..|y|] == y;
  }

  /** The challenge post-processing computes exactly unpadded base64url. */
  lemma ChallengeIsBase64Url(digest: seq<byte>)
    ensures EncodeChallenge(digest) == Base64UrlNoPad(digest)
  {
    ReplacesAreUrl(Base64(digest));
    RewrittenBase64(digest);
    NoPadAlphabet(digest);
    var u := Base64UrlNoPad(digest);
    if u != [] {
      assert IsUrlChar(u[|u| - 1]);
    }
    StripPadding(u, |digest|);
  }

  /** UTF-8, what `new TextEncoder().encode(verifier)` produces. */
  function Utf8Encode(s: string): (r: seq<byte>)
    ensures (forall i :: 0 <= i < |s| ==> s[i] as int < 0x80) ==>
      |r| == |s| && forall i :: 0 <= i < |s| ==> r[i] as int == s[i] as int
    decreases |s|
  {
    if s == [] then []
    else
      var c := s[0] as int;
      var head: seq<byte> :=
        if c < 0x80 then [c as byte]
        else if c < 0x800 then [(0xC0 + c / 64) as byte, (0x80 + c % 64) as byte]
        else if c < 0x10000 then
          [(0xE0 + c / 4096) as byte, (0x80 + (c / 64) % 64) as byte, (0x80 + c % 64) as byte]
        else
          [(0xF0 + c / 262144) as byte, (0x80 + (c / 4096) % 64) as byte,
           (0x80 + (c / 64) % 64) as byte, (0x80 + c % 64) as byte];
      head + Utf8Encode(s[1..])
  }

  /** `generateCodeChallenge(verifier)`; `sha256` stands for
      `crypto.subtle.digest('SHA-256', ·)`. The result is unpadded base64url of
      the digest, so it has no `+`, `/` or `=`, uses only unreserved characters,
      and a 32-byte digest gives the 43 characters of section 4.2 of RFC 7636. */
  function GenerateCodeChallenge(sha256: seq<byte> -> seq<byte>, verifier: string): (r: string)
    ensures r == Base64UrlNoPad(sha256(Utf8Encode(verifier)))
    ensures forall i :: 0 <= i < |r| ==> IsUrlChar(r[i])
    ensures '+' !in r && '/' !in r && '=' !in r
    ensures AllUnreserved(r)
    ensures |sha256(Utf8Encode(verifier))| == 32 ==> |r| == 43
  {
    var digest := sha256(Utf8Encode(verifier));
    ChallengeIsBase64Url(digest);
    NoPadAlphabet(digest);
    EncodeChallenge(digest)
  }
}
