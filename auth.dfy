/**
 * NightbotAuth: the OAuth2 login flow of the plugin (src/nightbot-auth.cpp).
 *
 * Authenticate starts a loopback HTTP server for 30 seconds and opens the
 * authorization page (section 4.1.1 of RFC 6749) in the browser. The backend
 * named as redirect URI then either POSTs the tokens to /token or sends the
 * browser back with an error query (section 4.1.2.1 of RFC 6749). A one-shot
 * timeout and a one-second countdown bound the wait. RefreshToken trades the
 * refresh token for a new access token at the backend.
 *
 * Sockets, timers, the browser and libcurl are not modelled. Binding the port
 * is a boolean input, a request is the text the socket delivers, a timer firing
 * is a method call, and a transfer is a Transport. What the object does to the
 * outside world (signals, replies written, disconnects, the URL opened) is
 * appended to `trace`.
 */
module Auth {
  import opened Wrappers
  import opened Json
  import opened Strings
  import opened Settings
  import opened Curl

  // The long constants are written in pieces so that facts about their characters stay cheap to prove.
  const ClientId: string := "148baef9" + "3cc409a2" + "21dfe21a" + "820efbab"
  const BackendBaseUrl: string :=
    "https://6000-" + "firebase-studio-" + "1765863731028." + "cluster-r7kbxfo3" + "fnev2vskbkhhphetq6." + "cloudworkstations" + ".dev"
  const AuthorizeEndpoint: string := "https://" + "nightbot.tv" + "/oauth2/" + "authorize"
  const Scopes: string := "song_requests_queue"
  /** The query keys of a failure redirect (section 4.1.2.1 of RFC 6749). */
  const ErrorKey: string := "error"
  const DescriptionKey: string := "error_description"
  /** Both the login timeout and the starting value of the countdown, in seconds. */
  const AuthSeconds: int := 30

  // ---------------------------------------------------------------------------
  // The authorization request

  /** The query items Authenticate adds, in the order it adds them. */
  function AuthorizeParams(): seq<(string, string)>
  {
    [("response_type", "code"), ("client_id", ClientId), ("redirect_uri", BackendBaseUrl), ("scope", Scopes)]
  }

  function AuthorizeUrl(): string
  {
    AuthorizeEndpoint + "?" + RenderQuery(AuthorizeParams())
  }

  // One character per lemma: what the solver has to unfold grows fast with the characters asked about.

  lemma BackendUrlHasNoAmpersand()
    ensures '&' !in BackendBaseUrl
  {
  }

  lemma BackendUrlHasNoHash()
    ensures '#' !in BackendBaseUrl
  {
  }

  lemma ClientIdIsPlain()
    ensures '&' !in ClientId && '#' !in ClientId
  {
  }

  lemma EndpointIsPlain()
    ensures '?' !in AuthorizeEndpoint && '#' !in AuthorizeEndpoint
  {
  }

  lemma AuthorizeParamsArePlain()
    ensures PlainItems(AuthorizeParams())
  {
    BackendUrlHasNoAmpersand();
    BackendUrlHasNoHash();
    ClientIdIsPlain();
  }

  /** The page the browser is sent to carries exactly the four authorization parameters, in order. */
  lemma AuthorizeUrlQuery()
    ensures QueryItems(QueryOf(AuthorizeUrl())) == AuthorizeParams()
  {
    AuthorizeParamsArePlain();
    EndpointIsPlain();
    QueryOfUrl(AuthorizeEndpoint, AuthorizeParams());
  }

  /** The browser is told to come back to the backend's base URL. */
  lemma AuthorizeRedirectUri()
    ensures ItemValue(QueryItems(QueryOf(AuthorizeUrl())), "redirect_uri") == BackendBaseUrl
  {
    AuthorizeUrlQuery();
    ParamsRedirectUri();
  }

  lemma ParamsRedirectUri()
    ensures ItemValue(AuthorizeParams(), "redirect_uri") == BackendBaseUrl
  {
    var items := AuthorizeParams();
    assert |items[0].0| != |"redirect_uri"| && |items[1].0| != |"redirect_uri"|;
    ItemValueAt(items, "redirect_uri", 2);
  }

  /** The page is the authorization endpoint: the URL up to its "?". */
  lemma AuthorizeUrlEndpoint()
    ensures Before(AuthorizeUrl(), '?') == AuthorizeEndpoint
  {
    EndpointIsPlain();
    var q := RenderQuery(AuthorizeParams());
    assert AuthorizeUrl() == AuthorizeEndpoint + ['?'] + q;
    SplitAfterPiece(AuthorizeEndpoint, '?', q);
  }

  // ---------------------------------------------------------------------------
  // Reading the callback request

  /** The request line: the text before the first CRLF (QString::split("\r\n").first()). */
  function FirstLine(request: string): (line: string)
    ensures '\r' !in request ==> line == request
  {
    OccursFirstChar(request, "\r\n");
    IndexOfIsFirst(request, "\r\n");
    match IndexOf(request, "\r\n")
    case None => request
    case Some(i) => request[..i]
  }

  datatype RequestLine = RequestLine(verb: string, target: string)

  /**
   * The method and target of a request line (section 3 of RFC 9112), split on
   * single spaces; a line with fewer than two parts is refused.
   */
  function ParseRequestLine(line: string): (r: Option<RequestLine>)
    ensures r.None? <==> ' ' !in line
    ensures r.Some? ==> ' ' !in r.value.verb && ' ' !in r.value.target
  {
    SplitManyIffSeparator(line, ' ');
    var parts := Split(line, ' ');
    if |parts| < 2 then None else Some(RequestLine(parts[0], parts[1]))
  }

  /** The text after the first blank line, if there is one. */
  function BodyOf(request: string): Option<string>
  {
    match IndexOf(request, "\r\n\r\n")
    case None => None
    case Some(i) => Some(request[i + 4..])
  }

  /** The target as the handler reads it: "+" becomes a space, then percent-escapes are decoded. */
  function DecodeTarget(target: string): string
  {
    PercentDecode(ReplaceChar(target, '+', ' '))
  }

  /** The query items of the decoded target. */
  function TargetItems(target: string): seq<(string, string)>
  {
    QueryItems(QueryOf(DecodeTarget(target)))
  }

  /** `error_description`, or `error` when the description is empty. */
  function ErrorReason(items: seq<(string, string)>): (reason: string)
    ensures ItemValue(items, DescriptionKey) != "" ==> reason == ItemValue(items, DescriptionKey)
    ensures ItemValue(items, DescriptionKey) == "" ==> reason == ItemValue(items, ErrorKey)
  {
    var description := ItemValue(items, DescriptionKey);
    if description == "" then ItemValue(items, ErrorKey) else description
  }

  /** The branch of the request handler a request takes. */
  datatype Route =
    | Malformed                    // fewer than two parts in the request line
    | TokenWithoutBody             // POST /token without a blank line
    | TokenPost(body: string)      // POST /token carrying the tokens
    | ErrorCallback(reason: string) // a GET whose query has an `error` item
    | Preflight                    // OPTIONS
    | NotFound                     // anything else

  /** The branch for a request line and a body, in the order the handler tests them. */
  function Classify(line: RequestLine, body: Option<string>): (r: Route)
    ensures r != Malformed
    ensures r.TokenPost? || r.TokenWithoutBody? <==> line.verb == "POST" && line.target == "/token"
    ensures r.TokenPost? <==> line.verb == "POST" && line.target == "/token" && body.Some?
    ensures r.ErrorCallback? <==>
              !(line.verb == "POST" && line.target == "/token")
              && line.verb == "GET" && HasItem(TargetItems(line.target), ErrorKey)
    ensures r == Preflight <==> line.verb == "OPTIONS"
  {
    if line.verb == "POST" && line.target == "/token" then
      if body.None? then TokenWithoutBody else TokenPost(body.value)
    else
      var items := TargetItems(line.target);
      if line.verb == "GET" && HasItem(items, ErrorKey) then ErrorCallback(ErrorReason(items))
      else if line.verb == "OPTIONS" then Preflight
      else NotFound
  }

  function RouteOf(request: string): (r: Route)
    ensures r == Malformed <==> ' ' !in FirstLine(request)
  {
    match ParseRequestLine(FirstLine(request))
    case None => Malformed
    case Some(line) => Classify(line, BodyOf(request))
  }

  // ---------------------------------------------------------------------------
  // Requests as they come over the wire

  /** A header line as the model sends it: not empty, no carriage return. */
  predicate IsHeaderLine(h: string)
  {
    h != "" && '\r' !in h
  }

  /** Header lines, each preceded by a CRLF. */
  function HeaderLines(headers: seq<string>): string
  {
    if |headers| == 0 then "" else "\r\n" + headers[0] + HeaderLines(headers[1..])
  }

  /** An HTTP/1.1 request: the request line, the header lines, a blank line and the body. */
  function WireRequest(verb: string, target: string, version: string, headers: seq<string>, body: string): string
  {
    verb + " " + target + " " + version + HeaderLines(headers) + "\r\n\r\n" + body
  }

  predicate WellFormedParts(verb: string, target: string, version: string, headers: seq<string>)
  {
    && ' ' !in verb && ' ' !in target
    && '\r' !in verb && '\r' !in target && '\r' !in version
    && forall i :: 0 <= i < |headers| ==> IsHeaderLine(headers[i])
  }

  /** No blank line starts inside `a` or its line break when a non-empty line without CR follows. */
  lemma NoBlankLineBefore(a: string, h: string, tail: string)
    requires '\r' !in a && IsHeaderLine(h)
    ensures forall j: nat :: j < |a| + 2 ==> !OccursAt(a + "\r\n" + (h + tail), "\r\n\r\n", j)
  {
    var s := a + "\r\n" + (h + tail);
    forall j: nat | j < |a| + 2 ensures !OccursAt(s, "\r\n\r\n", j) {
      if j < |a| {
        assert s[j] == a[j];
        NotOccursAt(s, "\r\n\r\n", j, 0);
      } else if j == |a| {
        assert s[j + 2] == h[0] && h[0] in h;
        NotOccursAt(s, "\r\n\r\n", j, 2);
      } else {
        assert s[j] == '\n';
        NotOccursAt(s, "\r\n\r\n", j, 0);
      }
    }
  }

  /** The blank line after the headers is the first "\r\n\r\n" of the request. */
  lemma {:induction false} BlankLineAfterHeaders(a: string, headers: seq<string>, rest: string)
    requires '\r' !in a
    requires forall i :: 0 <= i < |headers| ==> IsHeaderLine(headers[i])
    ensures IndexOf(a + HeaderLines(headers) + "\r\n\r\n" + rest, "\r\n\r\n") == Some(|a| + |HeaderLines(headers)|)
    decreases |headers|
  {
    if |headers| == 0 {
      assert a + HeaderLines(headers) + "\r\n\r\n" + rest == a + "\r\n\r\n" + rest;
      IndexOfAfter(a, "\r\n\r\n", rest);
    } else {
      BlankLineAfterHeaders(headers[0], headers[1..], rest);
      BlankLineAfterOneHeader(a, headers[0], HeaderLines(headers[1..]), rest);
    }
  }

  /** One header line in front of a request tail whose first blank line is known moves that blank line along. */
  lemma BlankLineAfterOneHeader(a: string, h: string, m: string, rest: string)
    requires '\r' !in a && IsHeaderLine(h)
    requires IndexOf(h + m + "\r\n\r\n" + rest, "\r\n\r\n") == Some(|h| + |m|)
    ensures IndexOf(a + ("\r\n" + h + m) + "\r\n\r\n" + rest, "\r\n\r\n") == Some(|a| + 2 + |h| + |m|)
  {
    var pat := "\r\n\r\n";
    Regroup(a, "\r\n", h, m, pat, rest);
    NoBlankLineBefore(a, h, m + pat + rest);
    IndexOfShift(a + "\r\n", h + (m + pat + rest), pat);
  }

  /** Regrouping a concatenation of six strings, stated with no literal in sight. */
  lemma Regroup(a: string, c: string, h: string, m: string, p: string, r: string)
    ensures a + (c + h + m) + p + r == (a + c) + (h + (m + p + r))
    ensures h + m + p + r == h + (m + p + r)
  {
  }

  lemma RequestLineOfParts(verb: string, target: string, version: string)
    requires ' ' !in verb && ' ' !in target
    ensures ParseRequestLine(verb + " " + target + " " + version) == Some(RequestLine(verb, target))
  {
    SplitAfterPiece(target, ' ', version);
    SplitAfterPiece(verb, ' ', target + [' '] + version);
    assert verb + " " + target + " " + version == verb + [' '] + (target + [' '] + version);
  }

  /**
   * The handler recovers the method, the target and the body of a well-formed
   * request, whatever its headers: it routes as Classify says for those parts.
   */
  lemma RouteOfWire(verb: string, target: string, version: string, headers: seq<string>, body: string)
    requires WellFormedParts(verb, target, version, headers)
    ensures RouteOf(WireRequest(verb, target, version, headers, body)) == Classify(RequestLine(verb, target), Some(body))
  {
    var line := verb + " " + target + " " + version;
    var request := WireRequest(verb, target, version, headers, body);
    assert '\r' !in line;
    var after := if |headers| == 0 then "\r\n" + body else headers[0] + HeaderLines(headers[1..]) + "\r\n\r\n" + body;
    assert request == line + "\r\n" + after;
    IndexOfAfter(line, "\r\n", after);
    assert FirstLine(request) == line;
    RequestLineOfParts(verb, target, version);
    BlankLineAfterHeaders(line, headers, body);
    assert request == line + HeaderLines(headers) + "\r\n\r\n" + body;
    assert BodyOf(request) == Some(body);
  }

  /** A request line without a space is dropped, whatever follows it. */
  lemma RouteOfSpacelessLine(line: string, rest: string)
    requires ' ' !in line && '\r' !in line
    ensures RouteOf(line + "\r\n" + rest) == Malformed
  {
    IndexOfAfter(line, "\r\n", rest);
    assert FirstLine(line + "\r\n" + rest) == line;
  }

  /** A POST to /token that ends before any line break has no body to read. */
  lemma RouteOfUnterminatedTokenPost(version: string)
    requires '\r' !in version
    ensures RouteOf("POST" + " " + "/token" + " " + version) == TokenWithoutBody
  {
    var request := "POST" + " " + "/token" + " " + version;
    assert '\r' !in request;
    IndexOfAbsentHead(request, "\r\n");
    IndexOfAbsentHead(request, "\r\n\r\n");
    RequestLineOfParts("POST", "/token", version);
  }

  /** The query items of a failure redirect: the error code, then its description. */
  function ErrorItems(error: string, description: string): seq<(string, string)>
  {
    [(ErrorKey, error), (DescriptionKey, description)]
  }

  /** The target the backend redirects to on failure, with both values percent-encoded. */
  function ErrorTarget(error: string, description: string): string
    requires Octets(error) && Octets(description)
  {
    "/" + "?" + RenderQuery(ErrorItems(PercentEncode(error), PercentEncode(description)))
  }

  lemma ErrorKeysAreUnreserved()
    ensures UnreservedText(ErrorKey) && UnreservedText(DescriptionKey)
  {
  }

  /** The failure target has no "+", space or CR: nothing for the "+" rule to change, and one request-line part. */
  lemma ErrorTargetCharacters(error: string, description: string)
    requires Octets(error) && Octets(description)
    ensures '+' !in ErrorTarget(error, description)
    ensures ' ' !in ErrorTarget(error, description) && '\r' !in ErrorTarget(error, description)
  {
    var items := ErrorItems(PercentEncode(error), PercentEncode(description));
    ErrorKeysAreUnreserved();
    forall c | c == '+' || c == ' ' || c == '\r' ensures c !in RenderQuery(items) {
      UnreservedAvoids(ErrorKey, c);
      UnreservedAvoids(DescriptionKey, c);
      EncodedAvoids(error, c);
      EncodedAvoids(description, c);
      NoCharInRender(items, c);
    }
  }

  /** Decoding the failure target gives the error and the description back as text. */
  lemma DecodeErrorTarget(error: string, description: string)
    requires Octets(error) && Octets(description)
    ensures DecodeTarget(ErrorTarget(error, description)) == "/" + "?" + RenderQuery(ErrorItems(error, description))
  {
    var t := ErrorTarget(error, description);
    ErrorTargetCharacters(error, description);
    assert ReplaceChar(t, '+', ' ') == t;
    ErrorKeysAreUnreserved();
    UnreservedAvoids(ErrorKey, '%');
    UnreservedAvoids(DescriptionKey, '%');
    DecodeOfPlainThen("/" + "?", RenderQuery(ErrorItems(PercentEncode(error), PercentEncode(description))));
    DecodeOfEncodedPair(ErrorKey, error, DescriptionKey, description);
  }

  /** The items of the failure target are the error and the description, in that order. */
  lemma ErrorTargetItems(error: string, description: string)
    requires Octets(error) && Octets(description)
    requires '&' !in error && '#' !in error && '&' !in description && '#' !in description
    ensures TargetItems(ErrorTarget(error, description)) == ErrorItems(error, description)
  {
    DecodeErrorTarget(error, description);
    ErrorKeysAreUnreserved();
    UnreservedAvoids(ErrorKey, '&');
    UnreservedAvoids(ErrorKey, '=');
    UnreservedAvoids(ErrorKey, '#');
    UnreservedAvoids(DescriptionKey, '&');
    UnreservedAvoids(DescriptionKey, '=');
    UnreservedAvoids(DescriptionKey, '#');
    QueryOfUrl("/", ErrorItems(error, description));
  }

  /**
   * A failure redirect is routed to the error branch, with the description as
   * the reason and the error code when the description is empty.
   */
  lemma RouteOfErrorRedirect(error: string, description: string, body: Option<string>)
    requires Octets(error) && Octets(description)
    requires '&' !in error && '#' !in error && '&' !in description && '#' !in description
    ensures Classify(RequestLine("GET", ErrorTarget(error, description)), body)
            == ErrorCallback(if description == "" then error else description)
  {
    var target := ErrorTarget(error, description);
    ErrorTargetItems(error, description);
    ReasonOfErrorFirst(TargetItems(target));
    ClassifyErrorGet(target, body);
  }

  /** Items that start with `error` and then `error_description` give the reason those two values name. */
  lemma ReasonOfErrorFirst(items: seq<(string, string)>)
    requires |items| >= 2 && items[0].0 == ErrorKey && items[1].0 == DescriptionKey
    ensures HasItem(items, ErrorKey)
    ensures ErrorReason(items) == if items[1].1 == "" then items[0].1 else items[1].1
  {
    assert |ErrorKey| != |DescriptionKey|;
    ItemValueAt(items, ErrorKey, 0);
    ItemValueAt(items, DescriptionKey, 1);
  }

  /** The items of a failure target whose description holds "&key=value" after its first part. */
  lemma CutTargetItems(error: string, first: string, key: string, value: string)
    requires Octets(error) && Octets(first + "&" + key + "=" + value)
    requires '&' !in error && '#' !in error && '&' !in first && '#' !in first
    requires '&' !in key && '=' !in key && '#' !in key && '&' !in value && '#' !in value
    ensures TargetItems(ErrorTarget(error, first + "&" + key + "=" + value))
            == [(ErrorKey, error), (DescriptionKey, first), (key, value)]
  {
    DecodeErrorTarget(error, first + "&" + key + "=" + value);
    RenderPairSplitsValue(ErrorKey, error, DescriptionKey, first, key, value);
    ErrorKeysAreUnreserved();
    UnreservedAvoids(ErrorKey, '&');
    UnreservedAvoids(ErrorKey, '=');
    UnreservedAvoids(ErrorKey, '#');
    UnreservedAvoids(DescriptionKey, '&');
    UnreservedAvoids(DescriptionKey, '=');
    UnreservedAvoids(DescriptionKey, '#');
    QueryOfUrl("/", [(ErrorKey, error), (DescriptionKey, first), (key, value)]);
  }

  /**
   * The target is decoded before the query is split, so an encoded "&" in the
   * description ends it: the text after it is read as another item.
   */
  lemma DescriptionCutAtEncodedAmpersand(error: string, first: string, key: string, value: string)
    requires Octets(error) && Octets(first + "&" + key + "=" + value)
    requires '&' !in error && '#' !in error && '&' !in first && '#' !in first && first != ""
    requires '&' !in key && '=' !in key && '#' !in key && '&' !in value && '#' !in value
    ensures Classify(RequestLine("GET", ErrorTarget(error, first + "&" + key + "=" + value)), None)
            == ErrorCallback(first)
  {
    var target := ErrorTarget(error, first + "&" + key + "=" + value);
    CutTargetItems(error, first, key, value);
    ReasonOfErrorFirst(TargetItems(target));
    ClassifyErrorGet(target, None);
  }

  /** A GET whose query has an `error` item takes the error branch. */
  lemma ClassifyErrorGet(target: string, body: Option<string>)
    requires HasItem(TargetItems(target), ErrorKey)
    ensures Classify(RequestLine("GET", target), body) == ErrorCallback(ErrorReason(TargetItems(target)))
  {
  }

  // ---------------------------------------------------------------------------
  // Reading tokens out of JSON

  /**
   * What the assignments `access_token = data["access_token"]` and then
   * `refresh_token = data["refresh_token"]` come to: both succeed, or the access
   * token is taken and the refresh token's conversion throws, or nothing is
   * taken (a parse error, a missing key, or an access value that is no string).
   */
  datatype TokenRead = BothTokens(access: string, refresh: string) | AccessOnly(access: string) | NoTokens

  /** The tokens a POST /token body yields; `contains` requires both keys first. */
  function ReadTokens(parsed: Option<Json>): (r: TokenRead)
    ensures r.BothTokens? <==>
              parsed.Some? && Contains(parsed.value, "access_token") && Contains(parsed.value, "refresh_token")
              && parsed.value.fields["access_token"].JString? && parsed.value.fields["refresh_token"].JString?
    ensures r.BothTokens? ==> r.access == parsed.value.fields["access_token"].s
                              && r.refresh == parsed.value.fields["refresh_token"].s
    ensures r.AccessOnly? ==> parsed.Some? && Contains(parsed.value, "access_token") && Contains(parsed.value, "refresh_token")
                              && JString(r.access) == parsed.value.fields["access_token"]
                              && !parsed.value.fields["refresh_token"].JString?
    ensures parsed.Some? && Contains(parsed.value, "access_token") && Contains(parsed.value, "refresh_token")
            && parsed.value.fields["access_token"].JString? && !parsed.value.fields["refresh_token"].JString?
            ==> r == AccessOnly(parsed.value.fields["access_token"].s)
    ensures parsed.None? ==> r == NoTokens
  {
    match parsed
    case None => NoTokens
    case Some(data) =>
      if Contains(data, "access_token") && Contains(data, "refresh_token") then
        var access, refresh := data.fields["access_token"], data.fields["refresh_token"];
        if !access.JString? then NoTokens
        else if !refresh.JString? then AccessOnly(access.s)
        else BothTokens(access.s, refresh.s)
      else NoTokens
  }

  /** The object the backend posts: both tokens as strings. */
  function TokensObject(access: string, refresh: string): Json
  {
    JObject(map["access_token" := JString(access), "refresh_token" := JString(refresh)])
  }

  lemma TokensObjectReads(access: string, refresh: string)
    ensures ReadTokens(Some(TokensObject(access, refresh))) == BothTokens(access, refresh)
  {
  }

  /** The refresh call: where it goes and the JSON object it carries. */
  datatype RefreshCall = RefreshCall(url: string, body: Json, headers: seq<string>)

  function RefreshRequest(refreshToken: string): RefreshCall
  {
    RefreshCall(BackendBaseUrl + "/api/refresh-token",
                JObject(map["refresh_token" := JString(refreshToken)]),
                ["Content-Type: application/json"])
  }

  /**
   * How a refresh transfer is handled. Only a JSON parse error is caught there,
   * so a token value that is no string throws out of RefreshToken: before the
   * access token is taken, or after it has been taken and saved.
   */
  datatype RefreshStep =
    | Rejected
    | Accepted(access: string, refresh: Option<string>)
    | ThrowsBeforeAccess
    | ThrowsAfterAccess(access: string)

  function RefreshStepOf(transport: Transport, parse: string -> Option<Json>): (r: RefreshStep)
    ensures !transport.Completed? ==> r == Rejected
    ensures transport.Completed? && !IsSuccess(transport.code) ==> r == Rejected
    ensures transport.Completed? && parse(transport.body).None? ==> r == Rejected
    ensures transport.Completed? && parse(transport.body).Some? && !Contains(parse(transport.body).value, "access_token")
            ==> r == Rejected
    ensures r.Accepted? ==>
              && transport.Completed? && IsSuccess(transport.code)
              && parse(transport.body).Some?
              && Field(parse(transport.body).value.fields, "access_token") == JString(r.access)
              && (r.refresh.Some? <==> Contains(parse(transport.body).value, "refresh_token"))
              && (r.refresh.Some? ==> Field(parse(transport.body).value.fields, "refresh_token") == JString(r.refresh.value))
    ensures transport.Completed? && IsSuccess(transport.code) && parse(transport.body).Some?
            && Contains(parse(transport.body).value, "access_token") ==>
              var data := parse(transport.body).value;
              var access := data.fields["access_token"];
              && (!access.JString? ==> r == ThrowsBeforeAccess)
              && (access.JString? && !Contains(data, "refresh_token") ==> r == Accepted(access.s, None))
              && (access.JString? && Contains(data, "refresh_token") ==>
                    r == if data.fields["refresh_token"].JString? then Accepted(access.s, Some(data.fields["refresh_token"].s))
                         else ThrowsAfterAccess(access.s))
  {
    match transport
    case InitFailed => Rejected
    case Failed(_, _) => Rejected
    case Completed(code, body) =>
      if !IsSuccess(code) then Rejected
      else
        match parse(body)
        case None => Rejected
        case Some(data) =>
          if !Contains(data, "access_token") then Rejected
          else
            var access := data.fields["access_token"];
            if !access.JString? then ThrowsBeforeAccess
            else if !Contains(data, "refresh_token") then Accepted(access.s, None)
            else
              var refresh := data.fields["refresh_token"];
              if refresh.JString? then Accepted(access.s, Some(refresh.s)) else ThrowsAfterAccess(access.s)
  }

  /** RefreshToken returns a bool, or a type_error escapes it. */
  datatype RefreshOutcome = Returned(success: bool) | TypeErrorEscaped

  /** The settings document once the three login keys have been emptied. */
  function ClearedDocument(doc: Option<Document>): (r: Option<Document>)
    ensures r.Some? <==> doc.Some?
    ensures r.Some? ==> StringAt(r, AccessTokenKey) == "" && StringAt(r, RefreshTokenKey) == ""
                        && StringAt(r, UserNameKey) == ""
    ensures forall k :: k != AccessTokenKey && k != RefreshTokenKey && k != UserNameKey ==> Lookup(r, k) == Lookup(doc, k)
  {
    Put(Put(Put(doc, AccessTokenKey, VString("")), RefreshTokenKey, VString("")), UserNameKey, VString(""))
  }

  /** Clearing twice leaves the document clearing once leaves. */
  lemma ClearIdempotent(doc: Option<Document>)
    ensures ClearedDocument(ClearedDocument(doc)) == ClearedDocument(doc)
  {
    if doc.Some? {
      var e := doc.value[AccessTokenKey := VString("")][RefreshTokenKey := VString("")][UserNameKey := VString("")];
      assert ClearedDocument(doc) == Some(e);
      var f := e[AccessTokenKey := VString("")][RefreshTokenKey := VString("")][UserNameKey := VString("")];
      assert ClearedDocument(Some(e)) == Some(f);
      assert f == e;
    }
  }

  // ---------------------------------------------------------------------------
  // What the object does to the outside world

  datatype Effect =
    | TimerUpdate(remaining: int)        // authTimerUpdate(remaining)
    | Finished(success: bool)            // authenticationFinished(success)
    | OpenedBrowser(url: string)         // QDesktopServices::openUrl
    | Replied(status: int, errorReason: Option<string>) // a response written to the socket (the error page shows the reason)
    | Disconnected                       // disconnectFromHost

  function CountFinished(trace: seq<Effect>): (n: nat)
    ensures n <= |trace|
  {
    if |trace| == 0 then 0
    else (if trace[0].Finished? then 1 else 0) + CountFinished(trace[1..])
  }

  lemma {:induction false} CountFinishedAppend(a: seq<Effect>, b: seq<Effect>)
    ensures CountFinished(a + b) == CountFinished(a) + CountFinished(b)
    decreases |a|
  {
    if |a| == 0 {
      assert a + b == b;
    } else {
      assert (a + b)[1..] == a[1..] + b;
      CountFinishedAppend(a[1..], b);
    }
  }

  /** No authenticationFinished is in a trace exactly when none of its effects is one. */
  lemma {:induction false} CountFinishedZero(trace: seq<Effect>)
    ensures CountFinished(trace) == 0 <==> forall i :: 0 <= i < |trace| ==> !trace[i].Finished?
    decreases |trace|
  {
    if |trace| > 0 {
      CountFinishedZero(trace[1..]);
      assert forall i :: 1 <= i < |trace| ==> trace[i] == trace[1..][i - 1];
    }
  }

  /** The two branches that only disconnect, leaving the server listening. */
  predicate KeepsListening(route: Route)
  {
    route == Malformed || route == TokenWithoutBody
  }

  /** The tokens a branch takes in: only a POST /token with a body reads any. */
  function TokensOf(route: Route, parse: string -> Option<Json>): TokenRead
  {
    if route.TokenPost? then ReadTokens(parse(route.body)) else NoTokens
  }

  /** What a branch writes, emits and closes. */
  function RouteEffects(route: Route, parse: string -> Option<Json>): seq<Effect>
  {
    match route
    case Malformed => [Disconnected]
    case TokenWithoutBody => [Disconnected]
    case TokenPost(body) =>
      if ReadTokens(parse(body)).BothTokens? then [Finished(true), Replied(200, None), Disconnected]
      else [Finished(false), Replied(400, None), Disconnected]
    case ErrorCallback(reason) => [Replied(400, Some(reason)), Finished(false), Disconnected]
    case Preflight => [Replied(204, None), Disconnected]
    case NotFound => [Replied(404, None), Disconnected]
  }

  function RequestEffects(request: string, parse: string -> Option<Json>): seq<Effect>
  {
    RouteEffects(RouteOf(request), parse)
  }

  /** A request emits authenticationFinished at most once, and only the POST and error branches emit it. */
  lemma AtMostOneFinishedPerRequest(request: string, parse: string -> Option<Json>)
    ensures CountFinished(RequestEffects(request, parse)) <= 1
    ensures CountFinished(RequestEffects(request, parse)) == 1 <==> RouteOf(request).TokenPost? || RouteOf(request).ErrorCallback?
  {
    var e := RequestEffects(request, parse);
    assert CountFinished(e) == (if e[0].Finished? then 1 else 0) + CountFinished(e[1..]);
    if |e| > 1 {
      assert CountFinished(e[1..]) == (if e[1].Finished? then 1 else 0) + CountFinished(e[2..]);
      if |e| > 2 {
        assert CountFinished(e[2..]) == (if e[2].Finished? then 1 else 0) + CountFinished(e[3..]);
      }
    }
  }

  /** Success is reported exactly for a POST /token whose body yields both tokens. */
  lemma FinishedTrueIffTokens(request: string, parse: string -> Option<Json>)
    ensures Finished(true) in RequestEffects(request, parse) <==>
              RouteOf(request).TokenPost? && ReadTokens(parse(RouteOf(request).body)).BothTokens?
  {
  }

  // ---------------------------------------------------------------------------
  // The object

  class NightbotAuth {
    /** The settings singleton the tokens are saved to. */
    const settings: SettingsManager
    var accessToken: string
    var refreshToken: string
    var authCountdown: int
    /** http_server->isListening() */
    var listening: bool
    /** auth_timeout_timer is active (single-shot, 30 s) */
    var timeoutArmed: bool
    /** countdown_timer is active (every second) */
    var countdownArmed: bool
    var trace: seq<Effect>

    /** The countdown, while it runs, is between 1 and 30. */
    ghost predicate Valid()
      reads this
    {
      countdownArmed ==> 0 < authCountdown <= AuthSeconds
    }

    /** The tokens are the ones saved in the settings; no server, no timer. */
    constructor (settings: SettingsManager)
      ensures Valid()
      ensures this.settings == settings
      ensures accessToken == settings.GetAccessToken() && refreshToken == settings.GetRefreshToken()
      ensures !listening && !timeoutArmed && !countdownArmed && trace == []
    {
      this.settings := settings;
      accessToken := settings.GetAccessToken();
      refreshToken := settings.GetRefreshToken();
      authCountdown := 0;
      listening := false;
      timeoutArmed := false;
      countdownArmed := false;
      trace := [];
    }

    /** Logged in exactly when there is an access token to hand to the API client. */
    function IsAuthenticated(): (b: bool)
      reads this
      ensures b <==> GetAccessToken() != ""
    {
      accessToken != ""
    }

    /** The in-memory token, which a failed POST /token may have replaced without saving it. */
    function GetAccessToken(): (t: string)
      reads this
      ensures t == accessToken
    {
      accessToken
    }

    /**
     * Starts the login: nothing while a login is already listening or when the
     * port cannot be bound; otherwise both timers run, the countdown starts at
     * 30 and the authorization page is opened.
     */
    method Authenticate(bindSucceeds: bool)
      requires Valid()
      modifies this
      ensures Valid()
      ensures accessToken == old(accessToken) && refreshToken == old(refreshToken)
      ensures old(listening) || !bindSucceeds ==>
                && listening == old(listening) && timeoutArmed == old(timeoutArmed)
                && countdownArmed == old(countdownArmed) && authCountdown == old(authCountdown)
                && trace == old(trace)
      ensures !old(listening) && bindSucceeds ==>
                && listening && timeoutArmed && countdownArmed && authCountdown == AuthSeconds
                && trace == old(trace) + [TimerUpdate(AuthSeconds), OpenedBrowser(AuthorizeUrl())]
    {
      if listening {
        return;
      }
      if !bindSucceeds {
        return;
      }
      listening := true;
      timeoutArmed := true;
      authCountdown := AuthSeconds;
      trace := trace + [TimerUpdate(authCountdown)];
      countdownArmed := true;
      trace := trace + [OpenedBrowser(AuthorizeUrl())];
    }

    /**
     * Trades the refresh token for a new access token at the backend. Without a
     * refresh token, or when libcurl cannot start, nothing is sent.
     */
    method RefreshToken(transport: Transport, parse: string -> Option<Json>) returns (sent: Option<RefreshCall>, outcome: RefreshOutcome)
      requires Valid()
      modifies this, settings
      ensures Valid()
      ensures listening == old(listening) && timeoutArmed == old(timeoutArmed) && countdownArmed == old(countdownArmed)
      ensures authCountdown == old(authCountdown) && trace == old(trace)
      ensures sent == if old(refreshToken) == "" || transport.InitFailed? then None else Some(RefreshRequest(old(refreshToken)))
      ensures sent.None? ==> outcome == Returned(false)
      ensures var step := if sent.None? then Rejected else RefreshStepOf(transport, parse);
              match step
              case Rejected =>
                && outcome == Returned(false)
                && accessToken == old(accessToken) && refreshToken == old(refreshToken)
                && settings.doc == old(settings.doc) && settings.disk == old(settings.disk)
              case ThrowsBeforeAccess =>
                && outcome == TypeErrorEscaped
                && accessToken == old(accessToken) && refreshToken == old(refreshToken)
                && settings.doc == old(settings.doc) && settings.disk == old(settings.disk)
              case ThrowsAfterAccess(access) =>
                && outcome == TypeErrorEscaped
                && accessToken == access && refreshToken == old(refreshToken)
                && settings.doc == Put(old(settings.doc), AccessTokenKey, VString(access))
                && settings.disk == (if settings.doc.Some? then settings.doc else old(settings.disk))
              case Accepted(access, None) =>
                && outcome == Returned(true)
                && accessToken == access && refreshToken == old(refreshToken)
                && settings.doc == Put(old(settings.doc), AccessTokenKey, VString(access))
                && settings.disk == (if settings.doc.Some? then settings.doc else old(settings.disk))
              case Accepted(access, Some(refresh)) =>
                && outcome == Returned(true)
                && accessToken == access && refreshToken == refresh
                && settings.doc == Put(Put(old(settings.doc), AccessTokenKey, VString(access)), RefreshTokenKey, VString(refresh))
                && settings.disk == (if settings.doc.Some? then settings.doc else old(settings.disk))
    {
      if refreshToken == "" {
        return None, Returned(false);
      }
      if transport.InitFailed? {
        return None, Returned(false);
      }
      sent := Some(RefreshRequest(refreshToken));
      outcome := Returned(false);
      if transport.Failed? {
        return;
      }
      if !IsSuccess(transport.code) {
        return;
      }
      var parsed := parse(transport.body);
      if parsed.None? {
        return;                                   // parse_error, caught
      }
      var data := parsed.value;
      if !Contains(data, "access_token") {
        return;
      }
      var access := data.fields["access_token"];
      if !access.JString? {
        return sent, TypeErrorEscaped;            // type_error, not caught
      }
      accessToken := access.s;
      settings.SetAccessToken(accessToken);
      if Contains(data, "refresh_token") {
        var refresh := data.fields["refresh_token"];
        if !refresh.JString? {
          return sent, TypeErrorEscaped;          // type_error, not caught
        }
        refreshToken := refresh.s;
        settings.SetRefreshToken(refreshToken);
      }
      outcome := Returned(true);
    }

    /** Forgets the login: both tokens and the user name are emptied in memory and in the settings file. */
    method ClearTokens()
      requires Valid()
      modifies this, settings
      ensures Valid()
      ensures accessToken == "" && refreshToken == ""
      ensures !IsAuthenticated()
      ensures settings.doc == ClearedDocument(old(settings.doc))
      ensures settings.disk == if settings.doc.Some? then settings.doc else old(settings.disk)
      ensures listening == old(listening) && timeoutArmed == old(timeoutArmed) && countdownArmed == old(countdownArmed)
      ensures authCountdown == old(authCountdown) && trace == old(trace)
    {
      accessToken := "";
      refreshToken := "";
      settings.SetAccessToken("");
      settings.SetRefreshToken("");
      settings.SetUserName("");
    }

    /** A connection is accepted (only while listening): both timers stop. */
    method OnNewConnection()
      requires Valid() && listening
      modifies this
      ensures Valid()
      ensures !timeoutArmed && !countdownArmed
      ensures listening && accessToken == old(accessToken) && refreshToken == old(refreshToken)
      ensures authCountdown == old(authCountdown) && trace == old(trace)
    {
      timeoutArmed := false;
      countdownArmed := false;
    }

    /**
     * The request an accepted socket delivers. A malformed request line, or a
     * POST /token without a blank line, is dropped and the server keeps
     * listening; every other branch replies, disconnects and closes the server.
     */
    method OnRequest(request: string, parse: string -> Option<Json>)
      requires Valid()
      modifies this, settings
      ensures Valid()
      ensures trace == old(trace) + RequestEffects(request, parse)
      ensures listening == (old(listening) && KeepsListening(RouteOf(request)))
      ensures timeoutArmed == old(timeoutArmed) && countdownArmed == old(countdownArmed) && authCountdown == old(authCountdown)
      ensures match TokensOf(RouteOf(request), parse)
              case BothTokens(access, refresh) =>
                && accessToken == access && refreshToken == refresh
                && settings.doc == Put(Put(old(settings.doc), AccessTokenKey, VString(access)), RefreshTokenKey, VString(refresh))
                && settings.disk == (if settings.doc.Some? then settings.doc else old(settings.disk))
              case AccessOnly(access) =>
                && accessToken == access && refreshToken == old(refreshToken)
                && settings.doc == old(settings.doc) && settings.disk == old(settings.disk)
              case NoTokens =>
                && accessToken == old(accessToken) && refreshToken == old(refreshToken)
                && settings.doc == old(settings.doc) && settings.disk == old(settings.disk)
    {
      HandleRoute(RouteOf(request), parse);
    }

    /** The handler once the branch is known. */
    method HandleRoute(route: Route, parse: string -> Option<Json>)
      requires Valid()
      modifies this, settings
      ensures Valid()
      ensures trace == old(trace) + RouteEffects(route, parse)
      ensures listening == (old(listening) && KeepsListening(route))
      ensures timeoutArmed == old(timeoutArmed) && countdownArmed == old(countdownArmed) && authCountdown == old(authCountdown)
      ensures match TokensOf(route, parse)
              case BothTokens(access, refresh) =>
                && accessToken == access && refreshToken == refresh
                && settings.doc == Put(Put(old(settings.doc), AccessTokenKey, VString(access)), RefreshTokenKey, VString(refresh))
                && settings.disk == (if settings.doc.Some? then settings.doc else old(settings.disk))
              case AccessOnly(access) =>
                && accessToken == access && refreshToken == old(refreshToken)
                && settings.doc == old(settings.doc) && settings.disk == old(settings.disk)
              case NoTokens =>
                && accessToken == old(accessToken) && refreshToken == old(refreshToken)
                && settings.doc == old(settings.doc) && settings.disk == old(settings.disk)
    {
      if KeepsListening(route) {
        trace := trace + [Disconnected];
        return;
      }
      // Every branch replies (the error branch after reporting), then disconnects and closes the server.
      match route {
      case TokenPost(body) =>
        match ReadTokens(parse(body)) {
        case BothTokens(access, refresh) =>
          accessToken := access;
          refreshToken := refresh;
          settings.SetAccessToken(accessToken);
          settings.SetRefreshToken(refreshToken);
          trace := trace + [Finished(true), Replied(200, None), Disconnected];
        case AccessOnly(access) =>
          accessToken := access;                  // the refresh conversion then throws
          trace := trace + [Finished(false), Replied(400, None), Disconnected];
        case NoTokens =>
          trace := trace + [Finished(false), Replied(400, None), Disconnected];
        }
      case ErrorCallback(reason) =>
        trace := trace + [Replied(400, Some(reason)), Finished(false), Disconnected];
      case Preflight =>
        trace := trace + [Replied(204, None), Disconnected];
      case NotFound =>
        trace := trace + [Replied(404, None), Disconnected];
      }
      listening := false;
    }

    /** The 30-second timeout fires: only a login still listening is ended, with a failure. */
    method OnAuthTimeout()
      requires Valid() && timeoutArmed
      modifies this
      ensures Valid()
      ensures !timeoutArmed && !listening
      ensures old(listening) ==> !countdownArmed && trace == old(trace) + [Finished(false)]
      ensures !old(listening) ==> countdownArmed == old(countdownArmed) && trace == old(trace)
      ensures accessToken == old(accessToken) && refreshToken == old(refreshToken) && authCountdown == old(authCountdown)
    {
      timeoutArmed := false;
      if listening {
        countdownArmed := false;
        listening := false;
        trace := trace + [Finished(false)];
      }
    }

    /** One second of the countdown: it goes down by one, is announced, and stops at zero. */
    method OnSecondElapsed()
      requires Valid() && countdownArmed
      modifies this
      ensures Valid()
      ensures 0 <= authCountdown < AuthSeconds
      ensures authCountdown == old(authCountdown) - 1
      ensures trace == old(trace) + [TimerUpdate(authCountdown)]
      ensures countdownArmed <==> authCountdown > 0
      ensures listening == old(listening) && timeoutArmed == old(timeoutArmed)
      ensures accessToken == old(accessToken) && refreshToken == old(refreshToken)
    {
      authCountdown := authCountdown - 1;
      trace := trace + [TimerUpdate(authCountdown)];
      if authCountdown <= 0 {
        countdownArmed := false;
      }
    }
  }

  // ---------------------------------------------------------------------------
  // Whole flows

  /** A login that nobody answers ends with one failure, after which no timer runs and nothing listens. */
  method UnansweredLogin(file: Option<Document>) returns (trace: seq<Effect>, listening: bool, timersRun: bool)
    ensures trace == [TimerUpdate(AuthSeconds), OpenedBrowser(AuthorizeUrl()), Finished(false)]
    ensures CountFinished(trace) == 1
    ensures !listening && !timersRun
  {
    var settings := new SettingsManager(file);
    settings.Load();
    var auth := new NightbotAuth(settings);
    auth.Authenticate(true);
    auth.OnAuthTimeout();
    trace, listening, timersRun := auth.trace, auth.listening, auth.timeoutArmed || auth.countdownArmed;
    assert trace == [TimerUpdate(AuthSeconds), OpenedBrowser(AuthorizeUrl())] + [Finished(false)];
    CountFinishedAppend([TimerUpdate(AuthSeconds), OpenedBrowser(AuthorizeUrl())], [Finished(false)]);
  }

  /** A login whose callback request takes the POST /token branch, served by a fresh plugin. */
  method TokenSession(file: Option<Document>, route: Route, access: string, refresh: string,
                      parse: string -> Option<Json>)
    returns (effects: seq<Effect>, authenticated: bool, savedAccess: string, savedRefresh: string)
    requires route.TokenPost?
    requires ReadTokens(parse(route.body)) == BothTokens(access, refresh)
    ensures effects == [Finished(true), Replied(200, None), Disconnected]
    ensures authenticated <==> access != ""
    ensures savedAccess == access && savedRefresh == refresh
  {
    var settings := new SettingsManager(file);
    settings.Load();
    var auth := new NightbotAuth(settings);
    auth.Authenticate(true);
    auth.OnNewConnection();
    var before := auth.trace;
    auth.HandleRoute(route, parse);
    effects, authenticated := auth.trace[|before|..], auth.IsAuthenticated();
    var restarted := new SettingsManager(settings.disk);
    restarted.Load();
    savedAccess, savedRefresh := restarted.GetAccessToken(), restarted.GetRefreshToken();
  }

  /**
   * The backend posts the tokens: both are saved, success is reported once, the
   * reply is 200, and a restart reads the same tokens back.
   */
  method TokensDelivered(file: Option<Document>, version: string, headers: seq<string>, body: string,
                         access: string, refresh: string, parse: string -> Option<Json>)
    returns (effects: seq<Effect>, authenticated: bool, savedAccess: string, savedRefresh: string)
    requires WellFormedParts("POST", "/token", version, headers)
    requires parse(body) == Some(TokensObject(access, refresh))
    ensures effects == [Finished(true), Replied(200, None), Disconnected]
    ensures authenticated <==> access != ""
    ensures savedAccess == access && savedRefresh == refresh
  {
    var request := WireRequest("POST", "/token", version, headers, body);
    assert RouteOf(request) == TokenPost(body) by {
      RouteOfWire("POST", "/token", version, headers, body);
    }
    TokensObjectReads(access, refresh);
    effects, authenticated, savedAccess, savedRefresh := TokenSession(file, RouteOf(request), access, refresh, parse);
  }

  /** A fresh plugin serving one request whose branch reads no tokens and reports nothing. */
  method SilentSession(file: Option<Document>, route: Route, parse: string -> Option<Json>)
    returns (finishedCount: nat, listening: bool, timersRun: bool)
    requires route == Preflight || route == Malformed
    ensures finishedCount == 0 && !timersRun
    ensures listening <==> route == Malformed
  {
    var settings := new SettingsManager(file);
    settings.Load();
    var auth := new NightbotAuth(settings);
    auth.Authenticate(true);
    auth.OnNewConnection();
    auth.HandleRoute(route, parse);
    CountFinishedZero(auth.trace);
    finishedCount, listening := CountFinished(auth.trace), auth.listening;
    timersRun := auth.timeoutArmed || auth.countdownArmed;
  }

  /** A CORS preflight closes the server after the timers were stopped: no outcome is ever reported. */
  method PreflightEndsSilently(file: Option<Document>, target: string, version: string, headers: seq<string>,
                               parse: string -> Option<Json>)
    returns (finishedCount: nat, listening: bool, timersRun: bool)
    requires WellFormedParts("OPTIONS", target, version, headers)
    ensures finishedCount == 0 && !listening && !timersRun
  {
    var request := WireRequest("OPTIONS", target, version, headers, "");
    assert RouteOf(request) == Preflight by {
      RouteOfWire("OPTIONS", target, version, headers, "");
    }
    finishedCount, listening, timersRun := SilentSession(file, RouteOf(request), parse);
  }

  /** A request line without a space is dropped: the server keeps listening with both timers stopped. */
  method MalformedLeavesServerOpen(file: Option<Document>, line: string, rest: string, parse: string -> Option<Json>)
    returns (finishedCount: nat, listening: bool, timersRun: bool)
    requires ' ' !in line && '\r' !in line
    ensures finishedCount == 0 && listening && !timersRun
  {
    RouteOfSpacelessLine(line, rest);
    finishedCount, listening, timersRun := SilentSession(file, RouteOf(line + "\r\n" + rest), parse);
  }

  /** Clearing the tokens twice leaves what clearing once leaves, and the user is logged out. */
  method ClearTwice(file: Option<Document>) returns (once: Option<Document>, twice: Option<Document>, authenticated: bool)
    ensures once == twice && !authenticated
  {
    var settings := new SettingsManager(file);
    settings.Load();
    var auth := new NightbotAuth(settings);
    auth.ClearTokens();
    once := settings.doc;
    auth.ClearTokens();
    twice := settings.doc;
    ClearIdempotent(Some(if file.Some? then file.value else Defaults()));
    authenticated := auth.IsAuthenticated();
  }
}
