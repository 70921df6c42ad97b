/** HTTP message signing as the processor requires it: the HTTP Signatures scheme of
    draft-cavage-http-signatures (section 2.1, the `Signature` header parameters;
    section 2.3, the signature string) over five headers, with HMAC-SHA256, and the
    `Digest` header of RFC 3230 (section 4.3.2) carrying a SHA-256 of the body. */
module Signing {
  import opened Php
  import opened Primitives

  // ---------------------------------------------------------------------------
  // Lines of a string

  /** The lines joined with "\n" and no newline after the last one. */
  function Join(lines: seq<string>): string
    requires |lines| >= 1
  {
    if |lines| == 1 then lines[0] else lines[0] + "\n" + Join(lines[1..])
  }

  /** The string cut at every "\n" (PHP's `explode("\n", $s)`). */
  function Split(s: string): (lines: seq<string>)
    ensures |lines| >= 1
  {
    if s == [] then [""]
    else
      var rest := Split(s[1..]);
      if s[0] == '\n' then [""] + rest else [[s[0]] + rest[0]] + rest[1..]
  }

  lemma {:induction false} SplitAfterLine(a: string, t: string)
    requires '\n' !in a
    ensures Split(a + t) == [a + Split(t)[0]] + Split(t)[1..]
  {
    var rest := Split(t);
    if a == [] {
      assert a + t == t;
      assert a + rest[0] == rest[0];
      assert [rest[0]] + rest[1..] == rest;
    } else {
      var at := a + t;
      assert at[0] == a[0] && at[0] != '\n';
      assert at[1..] == a[1..] + t;
      SplitAfterLine(a[1..], t);
      assert Split(at) == [[a[0]] + Split(at[1..])[0]] + Split(at[1..])[1..];
      assert [a[0]] + (a[1..] + rest[0]) == a + rest[0];
    }
  }

  /** Cutting the joined lines at the newlines gives back the lines, provided none of
      them holds a newline itself. */
  lemma {:induction false} SplitJoin(lines: seq<string>)
    requires |lines| >= 1
    requires forall i :: 0 <= i < |lines| ==> '\n' !in lines[i]
    ensures Split(Join(lines)) == lines
  {
    if |lines| == 1 {
      SplitAfterLine(lines[0], "");
      assert lines[0] + "" == lines[0];
    } else {
      var rest := Join(lines[1..]);
      SplitJoin(lines[1..]);
      assert Join(lines) == lines[0] + ("\n" + rest);
      SplitAfterLine(lines[0], "\n" + rest);
      assert ("\n" + rest)[1..] == rest;
      assert lines[0] + "" == lines[0];
    }
  }

  // ---------------------------------------------------------------------------
  // The signature string

  /** The five lines that are signed, in the order the `headers` parameter lists them. */
  function SignedLines(host: string, resource: string, date: string, digest: string,
                       merchantId: string): seq<string>
  {
    [ "(request-target): post " + ToLower(resource),
      "host: " + host,
      "date: " + date,
      "digest: " + digest,
      "v-c-merchant-id: " + merchantId ]
  }

  /** The string that is signed. The request target is always written with `post` and the
      lower-cased resource path, whatever the request's method. */
  function SignatureString(host: string, resource: string, date: string, digest: string,
                           merchantId: string): string
  {
    "(request-target): post " + ToLower(resource) + "\n" +
    "host: " + host + "\n" +
    "date: " + date + "\n" +
    "digest: " + digest + "\n" +
    "v-c-merchant-id: " + merchantId
  }

  predicate OneLine(s: string) {
    '\n' !in s
  }

  /** With single-line inputs, the signature string is exactly the five signed lines
      joined by "\n", with no newline at its end. */
  lemma SignatureStringLines(host: string, resource: string, date: string, digest: string,
                             merchantId: string)
    requires OneLine(host) && OneLine(resource) && OneLine(date) && OneLine(digest)
    requires OneLine(merchantId)
    ensures Split(SignatureString(host, resource, date, digest, merchantId))
            == SignedLines(host, resource, date, digest, merchantId)
    ensures var s := SignatureString(host, resource, date, digest, merchantId);
            |s| > 0 && s[|s| - 1] != '\n'
  {
    var lines := SignedLines(host, resource, date, digest, merchantId);
    ToLowerKeepsNewlines(resource);
    assert OneLine(ToLower(resource));
    forall i | 0 <= i < |lines| ensures '\n' !in lines[i] {
    }
    JoinFive(lines[0], lines[1], lines[2], lines[3], lines[4]);
    assert lines == [lines[0], lines[1], lines[2], lines[3], lines[4]];
    SignatureStringIsJoin(host, resource, date, digest, merchantId);
    SplitJoin(lines);
    var last := lines[4];
    assert last[|last| - 1] in last;
  }

  lemma SignatureStringIsJoin(host: string, resource: string, date: string, digest: string,
                              merchantId: string)
    ensures var l := SignedLines(host, resource, date, digest, merchantId);
            SignatureString(host, resource, date, digest, merchantId)
            == l[0] + "\n" + l[1] + "\n" + l[2] + "\n" + l[3] + "\n" + l[4]
  {
  }

  /** Five lines joined, written out as the source concatenates them; the result ends with
      the last line. */
  lemma JoinFive(a: string, b: string, c: string, d: string, e: string)
    requires e != []
    ensures Join([a, b, c, d, e]) == a + "\n" + b + "\n" + c + "\n" + d + "\n" + e
    ensures var s := Join([a, b, c, d, e]); |s| > 0 && s[|s| - 1] == e[|e| - 1]
  {
    var l := [a, b, c, d, e];
    assert l[1..] == [b, c, d, e] && l[1..][1..] == [c, d, e];
    assert l[1..][1..][1..] == [d, e] && l[1..][1..][1..][1..] == [e];
    var de := d + "\n" + e;
    var cde := c + "\n" + de;
    var bcde := b + "\n" + cde;
    assert Join([d, e]) == de;
    assert Join([c, d, e]) == cde;
    assert Join([b, c, d, e]) == bcde;
    assert Join(l) == a + "\n" + bcde;
    assert a + "\n" + bcde == a + "\n" + b + "\n" + cde;
    assert a + "\n" + b + "\n" + cde == a + "\n" + b + "\n" + c + "\n" + de;
    assert a + "\n" + b + "\n" + c + "\n" + de == a + "\n" + b + "\n" + c + "\n" + d + "\n" + e;
  }

  lemma PrefixCancels(p: string, a: string, b: string)
    requires p + a == p + b
    ensures a == b
  {
    assert a == (p + a)[|p|..];
    assert b == (p + b)[|p|..];
  }

  /** Two single-line signature strings are equal only when they sign the same host, date,
      digest, merchant id and lower-cased resource: changing any one of these changes the
      string that the HMAC is computed over. */
  lemma SignatureStringInjective(host: string, resource: string, date: string, digest: string,
                                 merchantId: string, host': string, resource': string,
                                 date': string, digest': string, merchantId': string)
    requires OneLine(host) && OneLine(resource) && OneLine(date) && OneLine(digest)
    requires OneLine(merchantId)
    requires OneLine(host') && OneLine(resource') && OneLine(date') && OneLine(digest')
    requires OneLine(merchantId')
    requires SignatureString(host, resource, date, digest, merchantId)
             == SignatureString(host', resource', date', digest', merchantId')
    ensures host == host' && date == date' && digest == digest' && merchantId == merchantId'
    ensures ToLower(resource) == ToLower(resource')
  {
    SignatureStringLines(host, resource, date, digest, merchantId);
    SignatureStringLines(host', resource', date', digest', merchantId');
    var l := SignedLines(host, resource, date, digest, merchantId);
    var l' := SignedLines(host', resource', date', digest', merchantId');
    assert l == l';
    PrefixCancels("(request-target): post ", ToLower(resource), ToLower(resource'));
    PrefixCancels("host: ", host, host');
    PrefixCancels("date: ", date, date');
    PrefixCancels("digest: ", digest, digest');
    PrefixCancels("v-c-merchant-id: ", merchantId, merchantId');
  }

  // ---------------------------------------------------------------------------
  // Key, MAC, header and digest

  /** The HMAC key: the secret's strict base64 decoding when it has one, else the secret
      itself. */
  function SigningKey(prims: Primitives, secret: string): (key: string)
    ensures prims.base64DecodeStrict(secret).None? ==> key == secret
    ensures prims.base64DecodeStrict(secret).Some? ==> key == prims.base64DecodeStrict(secret).value
  {
    match prims.base64DecodeStrict(secret)
    case Some(k) => k
    case None => secret
  }

  /** The headers the signature covers, as the `headers` parameter names them. */
  const SignedHeaderNames := "(request-target) host date digest v-c-merchant-id"

  const HeaderStart := "keyid=\""

  const HeaderMiddle := "\", algorithm=\"HmacSHA256\", headers=\"" + SignedHeaderNames + "\", signature=\""

  /** The `Signature` header value: key id, algorithm, covered headers and the base64
      signature, in that fixed layout. */
  function SignatureHeader(keyId: string, signature: string): string {
    HeaderStart + keyId + HeaderMiddle + signature + "\""
  }

  /** The layout is unambiguous: a key id without a double quote and the signature can be
      read back from the header, so distinct key ids or signatures give distinct headers. */
  lemma SignatureHeaderInjective(keyId: string, signature: string, keyId': string,
                                 signature': string)
    requires '"' !in keyId && '"' !in keyId'
    requires SignatureHeader(keyId, signature) == SignatureHeader(keyId', signature')
    ensures keyId == keyId' && signature == signature'
  {
    var h := SignatureHeader(keyId, signature);
    HeaderShape(HeaderStart, keyId, HeaderMiddle, signature);
    HeaderShape(HeaderStart, keyId', HeaderMiddle, signature');
    PrefixCancels(HeaderStart, keyId + (HeaderMiddle + (signature + "\"")),
                  keyId' + (HeaderMiddle + (signature' + "\"")));
    assert HeaderMiddle[0] == '"';
    QuoteEndsKey(keyId, HeaderMiddle + (signature + "\""), keyId', HeaderMiddle + (signature' + "\""));
    PrefixCancels(HeaderMiddle, signature + "\"", signature' + "\"");
    assert signature == (signature + "\"")[..|signature|];
    assert signature' == (signature' + "\"")[..|signature'|];
  }

  lemma HeaderShape(p: string, k: string, m: string, s: string)
    ensures p + k + m + s + "\"" == p + (k + (m + (s + "\"")))
  {
  }

  /** The index of the first double quote in `s`, or `|s|` when there is none. */
  function FirstQuote(s: string): (i: nat)
    ensures i <= |s|
  {
    if s == [] || s[0] == '"' then 0 else 1 + FirstQuote(s[1..])
  }

  lemma {:induction false} FirstQuoteAfter(k: string, r: string)
    requires '"' !in k && |r| > 0 && r[0] == '"'
    ensures FirstQuote(k + r) == |k|
  {
    if k != [] {
      assert (k + r)[1..] == k[1..] + r;
      FirstQuoteAfter(k[1..], r);
    } else {
      assert k + r == r;
    }
  }

  /** A value without a double quote, followed by text that starts with one, is
      determined by the concatenation. */
  lemma QuoteEndsKey(k: string, r: string, k': string, r': string)
    requires '"' !in k && '"' !in k'
    requires |r| > 0 && r[0] == '"' && |r'| > 0 && r'[0] == '"'
    requires k + r == k' + r'
    ensures k == k' && r == r'
  {
    FirstQuoteAfter(k, r);
    FirstQuoteAfter(k', r');
    var h := k + r;
    assert k == h[..|k|] && k' == h[..|k'|];
    assert r == h[|k|..] && r' == h[|k'|..];
  }

  /** The `Digest` header value for a body: `SHA-256=` and the base64 of its raw SHA-256. */
  function DigestHeader(prims: Primitives, body: string): string {
    "SHA-256=" + prims.base64Encode(prims.sha256(body))
  }
}
