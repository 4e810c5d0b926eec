/**
 * The URL-import endpoint (`GET /api/fetch?url=…`): the server-side request forgery guard
 * on the target host and the order of the endpoint's checks. URL parsing, the upstream
 * request and `JSON.parse` are inputs (functions the caller supplies).
 */
module FetchRoute {
  import opened Options
  import opened Strings
  import opened JsonValues

  /** `MAX_SIZE`: five mebibytes. */
  const MaxSize := 5 * 1024 * 1024

  /** `BLOCKED_HOSTNAMES`. */
  const BlockedHostnames: seq<string> :=
    ["localhost", "127.0.0.1", "0.0.0.0", "[::1]", "metadata.google.internal", "169.254.169.254"]

  /** The cloud metadata address, the only link-local address on the list. */
  const MetadataAddress := "169.254.169.254"

  // ---------------------------------------------------------------------------------------
  // Private hosts
  // ---------------------------------------------------------------------------------------

  /** One group `\d{1,3}` of the IPv4 pattern: one to three ASCII digits. */
  predicate IsOctetText(s: string) {
    1 <= |s| <= 3 && forall i :: 0 <= i < |s| ==> IsDigit(s[i])
  }

  /**
   * `/^(\d{1,3})\.(\d{1,3})\.(\d{1,3})\.(\d{1,3})$/` with its groups read by `Number`:
   * the four values, each between 0 and 999 (no range check), or None when the host is
   * not four dot-separated groups of one to three digits.
   */
  function DottedQuad(hostname: string): (r: Option<seq<nat>>)
    ensures r.Some? ==> |r.value| == 4 && forall k :: 0 <= k < 4 ==> r.value[k] < 1000
  {
    var parts := Split(hostname, '.');
    if |parts| == 4 && IsOctetText(parts[0]) && IsOctetText(parts[1]) && IsOctetText(parts[2]) && IsOctetText(parts[3]) then
      OctetBound(parts[0]);
      OctetBound(parts[1]);
      OctetBound(parts[2]);
      OctetBound(parts[3]);
      Some([DigitsValue(parts[0], 10), DigitsValue(parts[1], 10), DigitsValue(parts[2], 10), DigitsValue(parts[3], 10)])
    else None
  }

  lemma OctetBound(s: string)
    requires IsOctetText(s)
    ensures DigitsValue(s, 10) < 1000
  {
    DigitsBound(s);
  }

  /** A run of decimal digits is worth less than ten to the power of its length. */
  lemma {:induction false} DigitsBound(s: string)
    requires forall i :: 0 <= i < |s| ==> IsDigit(s[i])
    ensures DigitsValue(s, 10) < Pow10(|s|)
    decreases |s|
  {
    if s != [] {
      DigitsBound(s[..|s| - 1]);
    }
  }

  function Pow10(n: nat): (p: nat)
    ensures p >= 1
  {
    if n == 0 then 1 else 10 * Pow10(n - 1)
  }

  /** The ranges tested on the first two values: 10/8, 172.16/12, 192.168/16, 127/8 and 0/8. */
  predicate InPrivateRange(a: nat, b: nat) {
    a == 10 || (a == 172 && 16 <= b <= 31) || (a == 192 && b == 168) || a == 127 || a == 0
  }

  /** `BLOCKED_HOSTNAMES.includes(hostname.toLowerCase())`. */
  predicate IsBlockedName(hostname: string) {
    ToLower(hostname) in BlockedHostnames
  }

  /** A dotted quad whose first two values fall in a private range. */
  predicate IsPrivateQuad(hostname: string) {
    DottedQuad(hostname).Some? && InPrivateRange(DottedQuad(hostname).value[0], DottedQuad(hostname).value[1])
  }

  /** `isPrivateIP(hostname)`: a listed name (compared in lower case), or a dotted quad in a private range. */
  predicate IsPrivateIP(hostname: string) {
    IsBlockedName(hostname) || IsPrivateQuad(hostname)
  }

  predicate NoUpper(s: string) {
    forall i :: 0 <= i < |s| ==> !('A' <= s[i] <= 'Z')
  }

  lemma NoUpperLower(s: string)
    requires NoUpper(s)
    ensures ToLower(s) == s
  {
  }

  /** Four groups joined by dots, written out. */
  lemma JoinQuad(a: string, b: string, c: string, d: string)
    ensures Join([a, b, c, d], ".") == a + "." + b + "." + c + "." + d
  {
    assert Join([c, d], ".") == c + "." + d by {
      assert [c, d][1..] == [d];
    }
    assert Join([b, c, d], ".") == b + "." + Join([c, d], ".") by {
      assert [b, c, d][1..] == [c, d];
    }
    assert Join([a, b, c, d], ".") == a + "." + Join([b, c, d], ".") by {
      assert [a, b, c, d][1..] == [b, c, d];
    }
  }

  /** The four groups joined by dots contain no upper-case letter and start with a digit. */
  lemma QuadText(a: string, b: string, c: string, d: string)
    requires IsOctetText(a) && IsOctetText(b) && IsOctetText(c) && IsOctetText(d)
    ensures NoUpper(Join([a, b, c, d], ".")) && IsDigit(Join([a, b, c, d], ".")[0])
  {
    JoinQuad(a, b, c, d);
  }

  lemma OctetNoDot(s: string)
    requires IsOctetText(s)
    ensures '.' !in s
  {
  }

  /** Four groups of digits joined by dots split back into the four groups. */
  lemma QuadSplit(a: string, b: string, c: string, d: string)
    requires IsOctetText(a) && IsOctetText(b) && IsOctetText(c) && IsOctetText(d)
    ensures Split(Join([a, b, c, d], "."), '.') == [a, b, c, d]
  {
    OctetNoDot(a);
    OctetNoDot(b);
    OctetNoDot(c);
    OctetNoDot(d);
    SplitJoin([a, b, c, d], '.');
  }

  /** Four groups of digits joined by dots are read back as their four values. */
  lemma QuadValues(a: string, b: string, c: string, d: string)
    requires IsOctetText(a) && IsOctetText(b) && IsOctetText(c) && IsOctetText(d)
    ensures DottedQuad(Join([a, b, c, d], ".")) == Some([DigitsValue(a, 10), DigitsValue(b, 10), DigitsValue(c, 10), DigitsValue(d, 10)])
  {
    QuadSplit(a, b, c, d);
  }

  /** A host starting with a digit, and free of upper case, is blocked by name only as one of the three listed addresses. */
  lemma BlockedDigitHost(h: string)
    requires NoUpper(h) && h != [] && IsDigit(h[0])
    ensures IsBlockedName(h) <==> h == "127.0.0.1" || h == "0.0.0.0" || h == MetadataAddress
  {
    NoUpperLower(h);
    assert "localhost"[0] == 'l' && "[::1]"[0] == '[' && "metadata.google.internal"[0] == 'm';
  }

  /** The first group of a quad that spells out `address`. */
  lemma FirstGroupOf(a: string, b: string, c: string, d: string, a': string, b': string, c': string, d': string)
    requires IsOctetText(a) && IsOctetText(b) && IsOctetText(c) && IsOctetText(d)
    requires IsOctetText(a') && IsOctetText(b') && IsOctetText(c') && IsOctetText(d')
    requires Join([a, b, c, d], ".") == Join([a', b', c', d'], ".")
    ensures a == a'
  {
    QuadSplit(a, b, c, d);
    QuadSplit(a', b', c', d');
  }

  /**
   * On a dotted quad the guard is exactly the five ranges plus the metadata address: the
   * other listed addresses lie in those ranges, and the listed names are not quads.
   */
  lemma {:induction false} QuadPrivate(a: string, b: string, c: string, d: string)
    requires IsOctetText(a) && IsOctetText(b) && IsOctetText(c) && IsOctetText(d)
    ensures IsPrivateIP(Join([a, b, c, d], "."))
        <==> InPrivateRange(DigitsValue(a, 10), DigitsValue(b, 10)) || Join([a, b, c, d], ".") == MetadataAddress
  {
    var h := Join([a, b, c, d], ".");
    QuadText(a, b, c, d);
    QuadValues(a, b, c, d);
    BlockedDigitHost(h);
    if h == "127.0.0.1" {
      LoopbackQuad();
      FirstGroupOf(a, b, c, d, "127", "0", "0", "1");
    } else if h == "0.0.0.0" {
      ZeroQuad();
      FirstGroupOf(a, b, c, d, "0", "0", "0", "0");
    }
  }

  /** "127.0.0.1" as four groups, the first worth 127. */
  lemma LoopbackQuad()
    ensures Join(["127", "0", "0", "1"], ".") == "127.0.0.1"
    ensures IsOctetText("127") && IsOctetText("0") && IsOctetText("1")
    ensures DigitsValue("127", 10) == 127
  {
    JoinQuad("127", "0", "0", "1");
    Value127();
  }

  /** "0.0.0.0" as four groups. */
  lemma ZeroQuad()
    ensures Join(["0", "0", "0", "0"], ".") == "0.0.0.0"
    ensures IsOctetText("0")
    ensures DigitsValue("0", 10) == 0
  {
    JoinQuad("0", "0", "0", "0");
  }

  lemma Value127()
    ensures DigitsValue("127", 10) == 127
  {
    assert "127"[..2] == "12" && "12"[..1] == "1" && "1"[..0] == "";
  }

  /** Groups are not range-checked: "10.999.0.1" is private. */
  lemma TenNetUnchecked()
    ensures IsPrivateIP("10.999.0.1")
  {
    var h := Join(["10", "999", "0", "1"], ".");
    assert h == "10.999.0.1" by {
      JoinQuad("10", "999", "0", "1");
    }
    assert IsPrivateIP(h) by {
      assert IsOctetText("10") && IsOctetText("999") && IsOctetText("0") && IsOctetText("1");
      assert DigitsValue("10", 10) == 10 by {
        assert "10"[..1] == "1" && "1"[..0] == "";
      }
      QuadPrivate("10", "999", "0", "1");
    }
  }

  /** A first group beyond 255 is no private range: "999.1.1.1" passes. */
  lemma HighFirstGroupPasses()
    ensures !IsPrivateIP("999.1.1.1")
  {
    var h := Join(["999", "1", "1", "1"], ".");
    assert h == "999.1.1.1" by {
      JoinQuad("999", "1", "1", "1");
    }
    assert !IsPrivateIP(h) by {
      assert IsOctetText("999") && IsOctetText("1");
      assert DigitsValue("999", 10) == 999 by {
        assert "999"[..2] == "99" && "99"[..1] == "9" && "9"[..0] == "";
      }
      assert h[0] != MetadataAddress[0];
      QuadPrivate("999", "1", "1", "1");
    }
  }

  /** Link-local addresses other than the metadata address pass the guard. */
  lemma {:induction false} OnlyMetadataLinkLocal(c: string, d: string)
    requires IsOctetText(c) && IsOctetText(d)
    ensures IsPrivateIP(Join(["169", "254", c, d], ".")) <==> Join(["169", "254", c, d], ".") == MetadataAddress
  {
    assert DigitsValue("169", 10) == 169 by {
      assert "169"[..2] == "16" && "16"[..1] == "1" && "1"[..0] == "";
    }
    QuadPrivate("169", "254", c, d);
  }

  /** The listed names are matched whatever their case. */
  lemma NameCaseIgnored()
    ensures IsPrivateIP("LocalHost")
  {
    assert ToLower("LocalHost") == "localhost";
  }

  /** "[::1]" is the only IPv6 host on the list: "[::2]" passes. */
  lemma OnlyListedIpv6()
    ensures IsPrivateIP("[::1]")
    ensures !IsPrivateIP("[::2]")
  {
    assert IsBlockedName("[::1]") by {
      NoUpperLower("[::1]");
      assert BlockedHostnames[3] == "[::1]";
    }
    assert !IsBlockedName("[::2]") by {
      NoUpperLower("[::2]");
      assert forall k :: 0 <= k < |BlockedHostnames| ==> BlockedHostnames[k] != "[::2]" by {
        assert "[::2]"[3] != "[::1]"[3];
      }
    }
    assert !IsPrivateQuad("[::2]") by {
      assert '.' !in "[::2]";
      assert Split("[::2]", '.') == ["[::2]"];
    }
  }

  // ---------------------------------------------------------------------------------------
  // The endpoint
  // ---------------------------------------------------------------------------------------

  /** The parts of a parsed URL the endpoint reads. */
  datatype Url = Url(protocol: string, hostname: string)

  /** What the upstream server answered. */
  datatype Upstream = Upstream(ok: bool, status: nat, statusText: string, contentLength: Option<string>, body: string)

  /** The upstream request: a network failure with its message, or a response. */
  datatype FetchResult = NetworkError(message: string) | Responded(upstream: Upstream)

  datatype FetchResponse = FetchError(status: nat, error: string) | FetchData(data: Json)

  const UrlRequiredError := "URL parameter is required"
  const InvalidUrlError := "Invalid URL"
  const SchemeError := "Only HTTP and HTTPS URLs are supported"
  const InternalUrlError := "Internal URLs are not allowed"
  const TooLargeError := "Response too large (max 5MB)"
  const NotJsonError := "Response is not valid JSON"

  /** `contentLength && parseInt(contentLength) > MAX_SIZE`; a header that is not a number never trips it. */
  predicate DeclaredTooLarge(contentLength: Option<string>) {
    contentLength.Some? && contentLength.value != ""
    && ParseInt(contentLength.value, Auto).Some? && ParseInt(contentLength.value, Auto).value > MaxSize
  }

  /** What the endpoint does with an upstream answer. */
  function Relay(result: FetchResult, parse: string -> Option<Json>): (r: FetchResponse)
    ensures r.FetchData? <==> result.Responded? && result.upstream.ok && !DeclaredTooLarge(result.upstream.contentLength)
                              && parse(result.upstream.body).Some?
    ensures r.FetchData? ==> r.data == parse(result.upstream.body).value
    ensures result.NetworkError? ==> r.FetchError? && r.status == 500
    ensures result.Responded? && !result.upstream.ok ==> r.FetchError? && r.status == result.upstream.status
    ensures result.Responded? && result.upstream.ok && DeclaredTooLarge(result.upstream.contentLength)
            ==> r == FetchError(413, TooLargeError)
    ensures (result.Responded? && result.upstream.ok && !DeclaredTooLarge(result.upstream.contentLength)
             && parse(result.upstream.body).None?) ==> r == FetchError(422, NotJsonError)
  {
    match result
    case NetworkError(message) => FetchError(500, "Fetch failed: " + message)
    case Responded(up) =>
      if !up.ok then FetchError(up.status, "Fetch failed: " + NatToString(up.status) + " " + up.statusText)
      else if DeclaredTooLarge(up.contentLength) then FetchError(413, TooLargeError)
      else match parse(up.body)
        case None => FetchError(422, NotJsonError)
        case Some(data) => FetchData(data)
  }

  /**
   * `GET`: 400 without a URL, 400 when it does not parse, 400 for a scheme other than
   * http and https, 403 for a private host, and otherwise the upstream answer relayed.
   */
  function Get(url: Option<string>, parseUrl: string -> Option<Url>, fetch: string -> FetchResult,
               parse: string -> Option<Json>): (r: FetchResponse)
    ensures url.None? || url.value == "" ==> r == FetchError(400, UrlRequiredError)
    ensures url.Some? && url.value != "" && parseUrl(url.value).None? ==> r == FetchError(400, InvalidUrlError)
    ensures (url.Some? && url.value != "" && parseUrl(url.value).Some?
             && parseUrl(url.value).value.protocol !in ["http:", "https:"]) ==> r == FetchError(400, SchemeError)
    ensures (url.Some? && url.value != "" && parseUrl(url.value).Some?
             && parseUrl(url.value).value.protocol in ["http:", "https:"]
             && IsPrivateIP(parseUrl(url.value).value.hostname)) ==> r == FetchError(403, InternalUrlError)
    ensures (url.Some? && url.value != "" && parseUrl(url.value).Some?
             && parseUrl(url.value).value.protocol in ["http:", "https:"]
             && !IsPrivateIP(parseUrl(url.value).value.hostname)) ==> r == Relay(fetch(url.value), parse)
    ensures r.FetchData? ==> url.Some? && parseUrl(url.value).Some?
                              && parseUrl(url.value).value.protocol in ["http:", "https:"]
                              && !IsPrivateIP(parseUrl(url.value).value.hostname)
  {
    if url.None? || url.value == "" then FetchError(400, UrlRequiredError)
    else match parseUrl(url.value)
      case None => FetchError(400, InvalidUrlError)
      case Some(parsed) =>
        if parsed.protocol !in ["http:", "https:"] then FetchError(400, SchemeError)
        else if IsPrivateIP(parsed.hostname) then FetchError(403, InternalUrlError)
        else Relay(fetch(url.value), parse)
  }

  /** A private host is refused with 403 before any request is made: the upstream is never consulted. */
  lemma PrivateHostNotFetched(url: string, parseUrl: string -> Option<Url>, f1: string -> FetchResult,
                              f2: string -> FetchResult, parse: string -> Option<Json>)
    requires url != "" && parseUrl(url).Some?
    requires parseUrl(url).value.protocol in ["http:", "https:"] && IsPrivateIP(parseUrl(url).value.hostname)
    ensures Get(Some(url), parseUrl, f1, parse) == Get(Some(url), parseUrl, f2, parse) == FetchError(403, InternalUrlError)
  {
  }

  /** A non-OK upstream is answered with its own status, whatever its size header and body. */
  lemma NonOkBeforeSize(up1: Upstream, up2: Upstream, parse: string -> Option<Json>)
    requires !up1.ok && up2 == up1.(contentLength := Some("99999999"), body := "{}")
    ensures Relay(Responded(up1), parse) == Relay(Responded(up2), parse)
    ensures Relay(Responded(up1), parse).status == up1.status
  {
  }

  /** A declared size over 5 MiB is refused with 413 before the body is parsed, whatever the parser says. */
  lemma SizeBeforeParse(up: Upstream, parse1: string -> Option<Json>, parse2: string -> Option<Json>)
    requires up.ok && DeclaredTooLarge(up.contentLength)
    ensures Relay(Responded(up), parse1) == Relay(Responded(up), parse2) == FetchError(413, TooLargeError)
  {
  }

  /** A request that fails in the network is answered 500 with the failure's message. */
  lemma NetworkErrorIs500(url: string, parseUrl: string -> Option<Url>, parse: string -> Option<Json>, message: string)
    requires url != "" && parseUrl(url).Some?
    requires parseUrl(url).value.protocol in ["http:", "https:"] && !IsPrivateIP(parseUrl(url).value.hostname)
    ensures Get(Some(url), parseUrl, _ => NetworkError(message), parse) == FetchError(500, "Fetch failed: " + message)
  {
  }

  /** Without a numeric content-length header the size limit never applies, however long the body. */
  lemma SizeLimitNeedsHeader(up: Upstream, parse: string -> Option<Json>)
    requires up.ok && up.contentLength.None? && parse(up.body).Some?
    ensures Relay(Responded(up), parse) == FetchData(parse(up.body).value)
  {
  }
}
