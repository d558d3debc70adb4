/** Device identity: the SAN URI of a client certificate and the percent-encoded certificate header. */
module SanUri {
  import opened Encoding
  import opened Wrappers

  const SEPARATOR := "://"

  datatype ParsedSanUri = ParsedSanUri(tenantId: string, deviceId: string)

  datatype Error =
    | MissingSchemeSeparator
    | SchemeMismatch(scheme: string, expected: string)
    | MissingTenant
    | MissingDeviceId
    | TrailingContent(trailing: string)

  datatype Result = Ok(value: ParsedSanUri) | Err(error: Error)

  // ---------------------------------------------------------------------------------------------
  // Splitting strings
  // ---------------------------------------------------------------------------------------------

  predicate Contains(s: string, pattern: string) {
    pattern <= s || (s != "" && Contains(s[1..], pattern))
  }

  /** The text before and after the first occurrence of a pattern. */
  function SplitOnce(s: string, pattern: string): (r: Option<(string, string)>)
    ensures r.Some? <==> Contains(s, pattern)
    ensures r.Some? ==> s == r.value.0 + pattern + r.value.1
  {
    if pattern <= s then Some(("", s[|pattern|..]))
    else if s == "" then None
    else
      match SplitOnce(s[1..], pattern)
      case None => None
      case Some((before, after)) => Some(([s[0]] + before, after))
  }

  /** One slash taken off the end if there is one. */
  function StripSlash(s: string): (r: string)
    ensures s == r || s == r + "/"
  {
    if s != "" && s[|s| - 1] == '/' then s[..|s| - 1] else s
  }

  predicate SameIgnoringCase(a: string, b: string) {
    |a| == |b| && forall k :: 0 <= k < |a| ==> LowerChar(a[k]) == LowerChar(b[k])
  }

  /** The same character, or the two cases of one ASCII letter. */
  predicate SameLetter(c: char, d: char) {
    c == d || ('A' <= c <= 'Z' && d as int - c as int == 32) || ('A' <= d <= 'Z' && c as int - d as int == 32)
  }

  /** Schemes are compared letter by letter, and only the case of ASCII letters is ignored. */
  lemma CaseIsIgnoredOfLettersOnly(a: string, b: string)
    ensures SameIgnoringCase(a, b) <==> |a| == |b| && forall k :: 0 <= k < |a| ==> SameLetter(a[k], b[k])
  {
    forall k | 0 <= k < |a| && k < |b| ensures LowerChar(a[k]) == LowerChar(b[k]) <==> SameLetter(a[k], b[k]) {
      CasesOfALetter(a[k], b[k]);
    }
  }

  // ---------------------------------------------------------------------------------------------
  // Parsing
  // ---------------------------------------------------------------------------------------------

  function ParseSanUri(raw: string, expectedScheme: string): Result {
    match SplitOnce(raw, SEPARATOR)
    case None => Err(MissingSchemeSeparator)
    case Some((scheme, rest)) =>
      if !SameIgnoringCase(scheme, expectedScheme) then Err(SchemeMismatch(scheme, expectedScheme))
      else ParsePath(rest)
  }

  function ParsePath(rest: string): Result {
    match SplitOnce(rest, "/")
    case None => Err(MissingDeviceId)
    case Some((tenant, afterTenant)) =>
      if tenant == "" then Err(MissingTenant)
      else
        var devicePart := StripSlash(afterTenant);
        if devicePart == "" then Err(MissingDeviceId)
        else
          match SplitOnce(devicePart, "/")
          case Some((_, trailing)) => Err(TrailingContent(trailing))
          case None => Ok(ParsedSanUri(tenant, devicePart))
  }

  // ---------------------------------------------------------------------------------------------
  // The accepted language
  // ---------------------------------------------------------------------------------------------

  predicate SlashFree(s: string) {
    !Contains(s, "/")
  }

  function Print(scheme: string, uri: ParsedSanUri): string {
    scheme + SEPARATOR + uri.tenantId + "/" + uri.deviceId
  }

  predicate WellFormed(uri: ParsedSanUri) {
    uri.tenantId != "" && uri.deviceId != "" && SlashFree(uri.tenantId) && SlashFree(uri.deviceId)
  }

  /** The two spellings of a URI: with and without a slash at the end. */
  predicate Spells(raw: string, scheme: string, uri: ParsedSanUri) {
    raw == Print(scheme, uri) || raw == Print(scheme, uri) + "/"
  }

  lemma {:induction false} ContainsAt(s: string, pattern: string, i: nat)
    requires i + |pattern| <= |s| && s[i..i + |pattern|] == pattern
    ensures Contains(s, pattern)
  {
    if i == 0 {
      assert pattern <= s;
    } else {
      assert s[1..][i - 1..i - 1 + |pattern|] == s[i..i + |pattern|];
      ContainsAt(s[1..], pattern, i - 1);
    }
  }

  lemma {:induction false} ContainsWhere(s: string, pattern: string) returns (i: nat)
    requires Contains(s, pattern)
    ensures i + |pattern| <= |s| && s[i..i + |pattern|] == pattern
  {
    if pattern <= s {
      i := 0;
    } else {
      var j := ContainsWhere(s[1..], pattern);
      i := j + 1;
      assert s[1..][j..j + |pattern|] == s[i..i + |pattern|];
    }
  }

  /** A slash or a separator cannot begin inside a text without one and end in the pattern that follows it. */
  lemma {:induction false} SplitAtFirst(a: string, pattern: string, b: string)
    requires !Contains(a, pattern) && (pattern == "/" || pattern == SEPARATOR)
    ensures SplitOnce(a + pattern + b, pattern) == Some((a, b))
    decreases |a|
  {
    var s := a + pattern + b;
    if a == "" {
      assert pattern <= s && s[|pattern|..] == b;
    } else {
      assert s[1..] == a[1..] + pattern + b;
      StraddleIsImpossible(a, pattern, b);
      SplitAtFirst(a[1..], pattern, b);
      assert [s[0]] + a[1..] == a;
    }
  }

  lemma StraddleIsImpossible(a: string, pattern: string, b: string)
    requires a != "" && !(pattern <= a) && (pattern == "/" || pattern == SEPARATOR)
    ensures !(pattern <= a + pattern + b)
  {
    var s := a + pattern + b;
    if |a| >= |pattern| {
      assert s[..|pattern|] == a[..|pattern|];
    } else {
      assert s[|a|] == ':' && pattern[|a|] == '/';
    }
  }

  lemma {:induction false} SplitIsFirst(s: string, pattern: string)
    requires Contains(s, pattern) && (pattern == "/" || pattern == SEPARATOR)
    ensures !Contains(SplitOnce(s, pattern).value.0, pattern)
  {
    if !(pattern <= s) {
      SplitIsFirst(s[1..], pattern);
      var before := SplitOnce(s[1..], pattern).value.0;
      var after := SplitOnce(s[1..], pattern).value.1;
      var longer := [s[0]] + before;
      assert s == longer + pattern + after;
      assert |longer| >= |pattern| ==> longer[..|pattern|] == s[..|pattern|];
      assert longer[1..] == before;
    }
  }

  lemma SameIsSymmetric(a: string, b: string)
    ensures SameIgnoringCase(a, b) <==> SameIgnoringCase(b, a)
  {
  }

  lemma CaseKeepsSeparator(a: string, b: string)
    requires SameIgnoringCase(a, b) && Contains(b, SEPARATOR)
    ensures Contains(a, SEPARATOR)
  {
    var i := ContainsWhere(b, SEPARATOR);
    assert b[i..i + 3][0] == b[i] && b[i..i + 3][1] == b[i + 1] && b[i..i + 3][2] == b[i + 2];
    assert LowerChar(a[i]) == ':' && LowerChar(a[i + 1]) == '/' && LowerChar(a[i + 2]) == '/';
    assert a[i..i + 3] == SEPARATOR;
    ContainsAt(a, SEPARATOR, i);
  }

  lemma ParseOfParts(scheme: string, rest: string, expectedScheme: string)
    requires !Contains(scheme, SEPARATOR)
    ensures ParseSanUri(scheme + SEPARATOR + rest, expectedScheme)
         == if SameIgnoringCase(scheme, expectedScheme) then ParsePath(rest)
            else Err(SchemeMismatch(scheme, expectedScheme))
  {
    SplitAtFirst(scheme, SEPARATOR, rest);
  }

  lemma PathOfParts(tenant: string, device: string)
    requires SlashFree(tenant) && SlashFree(device) && tenant != "" && device != ""
    ensures ParsePath(tenant + "/" + device) == Ok(ParsedSanUri(tenant, device))
    ensures ParsePath(tenant + "/" + (device + "/")) == Ok(ParsedSanUri(tenant, device))
  {
    SplitAtFirst(tenant, "/", device);
    SplitAtFirst(tenant, "/", device + "/");
    assert (device + "/")[..|device|] == device;
    if device[|device| - 1] == '/' {
      ContainsAt(device, "/", |device| - 1);
      assert false;
    }
  }

  /** Exact language: what is accepted are the two spellings of a well-formed URI under a matching scheme. */
  lemma AcceptedLanguage(raw: string, expectedScheme: string, uri: ParsedSanUri)
    ensures ParseSanUri(raw, expectedScheme) == Ok(uri) <==>
            && !Contains(expectedScheme, SEPARATOR) && WellFormed(uri)
            && exists scheme :: SameIgnoringCase(scheme, expectedScheme) && Spells(raw, scheme, uri)
  {
    if ParseSanUri(raw, expectedScheme) == Ok(uri) {
      AcceptedIsSpelling(raw, expectedScheme, uri);
    }
    if !Contains(expectedScheme, SEPARATOR) && WellFormed(uri) {
      forall scheme | SameIgnoringCase(scheme, expectedScheme) && Spells(raw, scheme, uri)
        ensures ParseSanUri(raw, expectedScheme) == Ok(uri)
      {
        SpellingIsAccepted(raw, expectedScheme, scheme, uri);
      }
    }
  }

  lemma AcceptedIsSpelling(raw: string, expectedScheme: string, uri: ParsedSanUri)
    requires ParseSanUri(raw, expectedScheme) == Ok(uri)
    ensures !Contains(expectedScheme, SEPARATOR) && WellFormed(uri)
    ensures exists scheme :: SameIgnoringCase(scheme, expectedScheme) && Spells(raw, scheme, uri)
  {
    hide SplitOnce, Contains, SameIgnoringCase;
    var (scheme, rest) := SplitOnce(raw, SEPARATOR).value;
    var (tenant, after) := SplitOnce(rest, "/").value;
    SplitIsFirst(raw, SEPARATOR);
    SplitIsFirst(rest, "/");
    if Contains(expectedScheme, SEPARATOR) {
      CaseKeepsSeparator(scheme, expectedScheme);
    }
    assert raw == scheme + SEPARATOR + (tenant + "/" + after);
    assert Spells(raw, scheme, uri);
  }

  lemma SpellingIsAccepted(raw: string, expectedScheme: string, scheme: string, uri: ParsedSanUri)
    requires !Contains(expectedScheme, SEPARATOR) && WellFormed(uri)
    requires SameIgnoringCase(scheme, expectedScheme) && Spells(raw, scheme, uri)
    ensures ParseSanUri(raw, expectedScheme) == Ok(uri)
  {
    SameIsSymmetric(scheme, expectedScheme);
    hide SplitOnce, Contains, SameIgnoringCase, ParsePath, ParseSanUri;
    if Contains(scheme, SEPARATOR) {
      CaseKeepsSeparator(expectedScheme, scheme);
    }
    var rest := uri.tenantId + "/" + uri.deviceId;
    PathOfParts(uri.tenantId, uri.deviceId);
    ParseOfParts(scheme, rest, expectedScheme);
    ParseOfParts(scheme, rest + "/", expectedScheme);
    assert Print(scheme, uri) == scheme + SEPARATOR + rest;
    assert Print(scheme, uri) + "/" == scheme + SEPARATOR + (rest + "/");
    assert rest + "/" == uri.tenantId + "/" + (uri.deviceId + "/");
  }

  /** Printing and parsing: exactly the well-formed URIs come back. */
  lemma PrintParseRoundTrip(scheme: string, expectedScheme: string, uri: ParsedSanUri)
    requires !Contains(expectedScheme, SEPARATOR) && SameIgnoringCase(scheme, expectedScheme)
    ensures ParseSanUri(Print(scheme, uri), expectedScheme) == Ok(uri) <==> WellFormed(uri)
  {
    assert Spells(Print(scheme, uri), scheme, uri);
    AcceptedLanguage(Print(scheme, uri), expectedScheme, uri);
  }

  // ---------------------------------------------------------------------------------------------
  // The rejected inputs
  // ---------------------------------------------------------------------------------------------

  /** A raw value without a separator, or with another scheme before the first one, is rejected as such. */
  lemma SchemeRejections(raw: string, expectedScheme: string, scheme: string)
    ensures ParseSanUri(raw, expectedScheme) == Err(MissingSchemeSeparator) <==> !Contains(raw, SEPARATOR)
    ensures ParseSanUri(raw, expectedScheme) == Err(SchemeMismatch(scheme, expectedScheme)) <==>
            && scheme + SEPARATOR <= raw && !Contains(scheme, SEPARATOR) && !SameIgnoringCase(scheme, expectedScheme)
  {
    if Contains(raw, SEPARATOR) {
      SplitIsFirst(raw, SEPARATOR);
    }
    if scheme + SEPARATOR <= raw && !Contains(scheme, SEPARATOR) {
      assert raw == scheme + SEPARATOR + raw[|scheme + SEPARATOR|..];
      SplitAtFirst(scheme, SEPARATOR, raw[|scheme + SEPARATOR|..]);
    }
    hide Contains, SplitOnce, SameIgnoringCase;
  }

  /** A tenant with nothing, or only slashes that are taken off, where the device id should be. */
  predicate LacksDevice(rest: string, tenant: string) {
    tenant != "" && SlashFree(tenant) && (rest == tenant + "/" || rest == tenant + "/" + "/")
  }

  lemma PathRejections(rest: string)
    ensures ParsePath(rest) == Err(MissingTenant) <==> "/" <= rest
    ensures ParsePath(rest) == Err(MissingDeviceId) <==> SlashFree(rest) || exists tenant :: LacksDevice(rest, tenant)
  {
    if !SlashFree(rest) {
      SplitIsFirst(rest, "/");
      var (tenant, after) := SplitOnce(rest, "/").value;
      if ParsePath(rest) == Err(MissingDeviceId) {
        assert LacksDevice(rest, tenant);
      }
      if "/" <= rest {
        assert tenant == "";
      }
      forall t | LacksDevice(rest, t)
        ensures ParsePath(rest) == Err(MissingDeviceId)
      {
        assert t + "/" == t + "/" + "";
        SplitAtFirst(t, "/", "");
        SplitAtFirst(t, "/", "/");
      }
    } else {
      assert !("/" <= rest);
    }
  }

  /** More than one segment after the tenant: what follows the first one, less one slash at the end. */
  predicate HasTrailing(rest: string, tenant: string, device: string, trailing: string) {
    && tenant != "" && SlashFree(tenant) && SlashFree(device)
    && (|| rest == tenant + "/" + (device + "/" + trailing + "/")
        || (rest == tenant + "/" + (device + "/" + trailing) && trailing != "" && trailing[|trailing| - 1] != '/'))
  }

  lemma TrailingRejections(rest: string, trailing: string)
    ensures ParsePath(rest) == Err(TrailingContent(trailing)) <==>
            exists tenant, device :: HasTrailing(rest, tenant, device, trailing)
  {
    if ParsePath(rest) == Err(TrailingContent(trailing)) {
      var (tenant, after) := SplitOnce(rest, "/").value;
      var devicePart := StripSlash(after);
      var device := SplitOnce(devicePart, "/").value.0;
      SplitIsFirst(rest, "/");
      SplitIsFirst(devicePart, "/");
      assert devicePart == device + "/" + trailing;
      assert HasTrailing(rest, tenant, device, trailing);
    }
    forall tenant, device | HasTrailing(rest, tenant, device, trailing)
      ensures ParsePath(rest) == Err(TrailingContent(trailing))
    {
      TrailingIsRejected(rest, tenant, device, trailing);
    }
  }

  lemma TrailingIsRejected(rest: string, tenant: string, device: string, trailing: string)
    requires HasTrailing(rest, tenant, device, trailing)
    ensures ParsePath(rest) == Err(TrailingContent(trailing))
  {
    var devicePart := device + "/" + trailing;
    SplitAtFirst(tenant, "/", devicePart);
    SplitAtFirst(tenant, "/", devicePart + "/");
    SplitAtFirst(device, "/", trailing);
    hide SplitOnce, Contains;
    assert (devicePart + "/")[..|devicePart|] == devicePart;
    assert trailing != "" ==> devicePart[|devicePart| - 1] == trailing[|trailing| - 1];
  }

  // ---------------------------------------------------------------------------------------------
  // Percent-encoded certificate header
  // ---------------------------------------------------------------------------------------------

  const PERCENT: Byte := 37

  function HexNibble(b: Byte): (r: Option<nat>)
    ensures r.Some? ==> r.value < 16
  {
    if 48 <= b <= 57 then Some(b - 48)
    else if 97 <= b <= 102 then Some(b - 97 + 10)
    else if 65 <= b <= 70 then Some(b - 65 + 10)
    else None
  }

  /** A byte is a digit of that value exactly if it is its character in one of the two cases. */
  lemma HexDigitsAre(b: Byte, n: nat)
    ensures HexNibble(b) == Some(n) <==>
            n < 16 && (b == "0123456789ABCDEF"[n] as int || b == "0123456789abcdef"[n] as int)
  {
  }

  /** The value of the escape that the bytes start with, if they start with one. */
  function Escape(s: Bytes): Option<Byte> {
    if |s| > 2 && s[0] == PERCENT && HexNibble(s[1]).Some? && HexNibble(s[2]).Some? then
      Some(HexNibble(s[1]).value * 16 + HexNibble(s[2]).value)
    else None
  }

  function Decoded(s: Bytes): Bytes {
    if s == [] then []
    else if Escape(s).Some? then [Escape(s).value] + Decoded(s[3..])
    else [s[0]] + Decoded(s[1..])
  }

  /** An escape that is cut short or has a bad digit is kept as it is; bytes that are not text are refused. */
  method PercentDecodePem(s: Bytes) returns (r: Option<Bytes>)
    ensures r == if Utf8(Decoded(s)) then Some(Decoded(s)) else None
  {
    hide Decoded, HexNibble, Utf8;
    var out: Bytes := [];
    var i := 0;
    assert s[0..] == s;
    while i < |s|
      invariant i <= |s|
      invariant Decoded(s) == out + Decoded(s[i..])
    {
      DecodeStep(s, i);
      ghost var before := out;
      if s[i] == PERCENT && i + 2 < |s| {
        var hi, lo := HexNibble(s[i + 1]), HexNibble(s[i + 2]);
        if hi.Some? && lo.Some? {
          var b := hi.value * 16 + lo.value;
          assert Escape(s[i..]) == Some(b);
          out := out + [b];
          assert before + ([b] + Decoded(s[i + 3..])) == out + Decoded(s[i + 3..]);
          i := i + 3;
          continue;
        }
      }
      assert Escape(s[i..]).None?;
      out := out + [s[i]];
      assert before + ([s[i]] + Decoded(s[i + 1..])) == out + Decoded(s[i + 1..]);
      i := i + 1;
    }
    DecodeEnd(s[i..]);
    assert out == Decoded(s);
    r := if Utf8(out) then Some(out) else None;
  }

  lemma DecodeStep(s: Bytes, i: nat)
    requires i < |s|
    ensures Escape(s[i..]).Some? ==>
              i + 3 <= |s| && Decoded(s[i..]) == [Escape(s[i..]).value] + Decoded(s[i + 3..])
    ensures Escape(s[i..]).None? ==> Decoded(s[i..]) == [s[i]] + Decoded(s[i + 1..])
  {
    hide HexNibble;
    var rest := s[i..];
    assert rest[1..] == s[i + 1..] && (|rest| >= 3 ==> rest[3..] == s[i + 3..]);
  }

  lemma DecodeEnd(s: Bytes)
    requires s == []
    ensures Decoded(s) == []
  {
  }

  /** Hexadecimal digits as proxies write them, in either case. */
  function HexDigit(n: nat, upper: bool): Byte
    requires n < 16
  {
    if n < 10 then 48 + n else if upper then 55 + n else 87 + n
  }

  /** Percent-encoding that escapes the bytes of some set. */
  function Encoded(s: Bytes, escaped: set<Byte>, upper: bool): Bytes {
    if s == [] then []
    else
      (if s[0] in escaped then [PERCENT, HexDigit(s[0] / 16, upper), HexDigit(s[0] % 16, upper)] else [s[0]]) +
      Encoded(s[1..], escaped, upper)
  }

  /** Whatever else a proxy escapes, if it escapes the percent sign the certificate text comes back. */
  lemma {:induction false} EncodeDecodeRoundTrip(s: Bytes, escaped: set<Byte>, upper: bool)
    requires PERCENT in escaped
    ensures Decoded(Encoded(s, escaped, upper)) == s
  {
    if s != [] {
      var rest := Encoded(s[1..], escaped, upper);
      var coded := Encoded(s, escaped, upper);
      EncodeDecodeRoundTrip(s[1..], escaped, upper);
      if s[0] in escaped {
        assert coded[3..] == rest;
        assert HexNibble(coded[1]) == Some(s[0] / 16) && HexNibble(coded[2]) == Some(s[0] % 16);
      } else {
        assert coded[1..] == rest;
      }
    }
  }

  /** A proxy that leaves the percent sign alone can change the text. */
  lemma UnescapedPercentIsAmbiguous()
    ensures var s: Bytes := [PERCENT, 52, 49]; Decoded(Encoded(s, {}, true)) == [65] != s
  {
    var s: Bytes := [PERCENT, 52, 49];
    assert s[1..][1..][1..] == [];
    assert Encoded(s[1..][1..], {}, true) == [49];
    assert Encoded(s[1..], {}, true) == [52, 49];
    assert Encoded(s, {}, true) == s;
    assert s[3..] == [];
    assert Escape(s) == Some(65);
  }

  predicate HasEscape(s: Bytes) {
    s != [] && (Escape(s).Some? || HasEscape(s[1..]))
  }

  /** The header comes through unchanged exactly when it holds no complete escape. */
  lemma {:induction false} DecodingIsIdentityIff(s: Bytes)
    ensures Decoded(s) == s <==> !HasEscape(s)
    ensures |Decoded(s)| <= |s|
  {
    if s != [] {
      if Escape(s).Some? {
        DecodingIsIdentityIff(s[3..]);
      } else {
        DecodingIsIdentityIff(s[1..]);
        assert s == [s[0]] + s[1..];
        if Decoded(s) == s {
          assert Decoded(s)[1..] == Decoded(s[1..]);
        }
      }
    }
  }
}
