/**
 * The proxy server (server.js): the bearer-token gate in front of the search
 * route, the search handler that forwards to the catalogue, and the final
 * error middleware. Token verification and the upstream fetch are given as
 * functions from their input to their outcome.
 */
module Server {
  import opened Wrappers
  import opened Text
  import opened UriComponent
  import opened QueryString
  import opened JsonValue
  import opened Sequences

  /** The `NODE_ENV` value that switches the gate off. */
  const Development := "development"

  /** The catalogue search endpoint the server forwards to. */
  const UpstreamSearch := "https://itunes.apple.com/search"

  /** The media category asked for when the request names none. */
  const DefaultMedia := "music"

  /** A query value or header as JavaScript tests it: present and not the empty string. */
  predicate Truthy(value: Option<string>) {
    value.Some? && value.value != ""
  }

  // ---------------------------------------------------------------- the gate

  /**
   * `authHeader && authHeader.split(' ')[1]`: the second space-separated word of
   * the Authorization header. A missing or empty header is passed through as
   * it is; a header with no second word gives None.
   */
  function ExtractToken(authorization: Option<string>): (token: Option<string>)
    ensures token.Some? ==> ' ' !in token.value
    ensures authorization.None? ==> token.None?
  {
    match authorization
    case None => None
    case Some(header) =>
      if header == "" then Some(header)
      else
        var words := Split(header, ' ');
        if |words| >= 2 then Some(words[1]) else None
  }

  /** The token is whatever follows the first space, whatever the first word (the scheme) is. */
  lemma TokenIsSecondWord(scheme: string, token: string, rest: string)
    requires ' ' !in scheme && ' ' !in token
    requires rest == "" || rest[0] == ' '
    ensures ExtractToken(Some(scheme + " " + token + rest)) == Some(token)
  {
    var tail := token + rest;
    var header := scheme + " " + token + rest;
    assert header == scheme + [' '] + tail;
    SplitAfterWord(scheme, ' ', tail);
    FirstWord(token, rest);
    var words := Split(header, ' ');
    assert words == [scheme] + Split(tail, ' ');
    assert words[1] == token;
  }

  lemma FirstWord(token: string, rest: string)
    requires ' ' !in token
    requires rest == "" || rest[0] == ' '
    ensures Split(token + rest, ' ')[0] == token
  {
    if rest == "" {
      assert token + rest == token;
    } else {
      var after := rest[1..];
      assert rest == [' '] + after;
      ConcatAssoc(token, [' '], after);
      SplitAfterWord(token, ' ', after);
    }
  }

  /** Two spaces after the scheme leave an empty second word, so `Bearer  abc` carries no token. */
  lemma DoubleSpaceLosesToken(scheme: string, token: string)
    requires ' ' !in scheme
    ensures ExtractToken(Some(scheme + "  " + token)) == Some("")
    ensures !Truthy(ExtractToken(Some(scheme + "  " + token)))
  {
    TokenIsSecondWord(scheme, "", " " + token);
    assert scheme + " " + "" + (" " + token) == scheme + "  " + token;
  }

  /** A header of one word (`Bearer` alone, say) carries no token. */
  lemma OneWordHasNoToken(header: string)
    requires ' ' !in header
    ensures !Truthy(ExtractToken(Some(header)))
  {
  }

  /** Whether the gate lets the request through to the route handler. */
  datatype GateOutcome = Next | Halt(response: Response)

  /** The route query: `req.query.term` and `req.query.media`. */
  datatype Query = Query(term: Option<string>, media: Option<string>)

  /** An inbound request: its Authorization header, its query, and `req.user`, which the gate sets. */
  class Request {
    const authorization: Option<string>
    const query: Query
    var user: Option<Json>

    constructor (authorization: Option<string>, query: Query)
      ensures this.authorization == authorization && this.query == query && user == None
    {
      this.authorization := authorization;
      this.query := query;
      user := None;
    }
  }

  /**
   * `authenticateToken`: `nodeEnv` is `process.env.NODE_ENV` and `verify` is
   * `jwt.verify` under the server's secret, giving the decoded claims or
   * None when the signature or expiry check fails.
   */
  method AuthenticateToken(req: Request, nodeEnv: Option<string>, verify: string -> Option<Json>)
    returns (outcome: GateOutcome)
    modifies req
    ensures nodeEnv == Some(Development) ==> outcome == Next && req.user == old(req.user)
    ensures nodeEnv != Some(Development) && !Truthy(ExtractToken(req.authorization)) ==>
      outcome == Halt(Response(401, ErrorBody("Access denied"))) && req.user == old(req.user)
    ensures nodeEnv != Some(Development) && Truthy(ExtractToken(req.authorization)) ==>
      match verify(ExtractToken(req.authorization).value)
      case None => outcome == Halt(Response(403, ErrorBody("Invalid token"))) && req.user == old(req.user)
      case Some(claims) => outcome == Next && req.user == Some(claims)
  {
    var token := ExtractToken(req.authorization);
    if nodeEnv == Some(Development) {
      return Next;
    }
    if !Truthy(token) {
      return Halt(Response(401, ErrorBody("Access denied")));
    }
    match verify(token.value) {
      case None =>
        return Halt(Response(403, ErrorBody("Invalid token")));
      case Some(claims) =>
        req.user := Some(claims);
        return Next;
    }
  }

  // ------------------------------------------------------- the search handler

  /** `media || 'music'` */
  function MediaOrDefault(media: Option<string>): (m: string)
    ensures m != ""
    ensures Truthy(media) ==> m == media.value
    ensures !Truthy(media) ==> m == DefaultMedia
  {
    if Truthy(media) then media.value else DefaultMedia
  }

  /** The parameters the server means to send upstream. */
  function SearchParameters(term: string, media: Option<string>): seq<string> {
    ["term=" + EncodeURIComponent(term), "media=" + MediaOrDefault(media), "limit=25"]
  }

  /**
   * The upstream URL: encoded term, the media value as given (not encoded),
   * limit 25. It is the endpoint, `?`, then those parameters joined by `&`.
   */
  function SearchUrl(term: string, media: Option<string>): (url: string)
    ensures url == UpstreamSearch + "?" + Join(SearchParameters(term, media), '&')
  {
    var encoded := EncodeURIComponent(term);
    var m := MediaOrDefault(media);
    JoinThree("term=" + encoded, "media=" + m, "limit=25", '&');
    ConcatShape(UpstreamSearch, encoded, m);
    UpstreamSearch + "?term=" + encoded + "&media=" + m + "&limit=25"
  }

  lemma ConcatShape(base: string, encoded: string, m: string)
    ensures base + "?term=" + encoded + "&media=" + m + "&limit=25"
         == base + "?" + (("term=" + encoded) + ['&'] + ("media=" + m) + ['&'] + "limit=25")
  {
    assert "?term=" == "?" + "term=";
    assert "&media=" == ['&'] + "media=";
    assert "&limit=25" == ['&'] + "limit=25";
  }

  /**
   * Read back, the upstream URL carries exactly term, media and limit=25, with
   * the term decoding to the one received, as long as the media value holds
   * no `&` or `#`.
   */
  lemma SearchUrlParameters(term: string, media: Option<string>)
    requires Clean(MediaOrDefault(media))
    ensures QueryParameters(SearchUrl(term, media)) == SearchParameters(term, media)
    ensures DecodeURIComponent(SearchParameters(term, media)[0][|"term="|..]) == Some(term)
  {
    var encoded := EncodeURIComponent(term);
    var parameters := SearchParameters(term, media);
    ParametersAreClean(term, media);
    BaseIsClean();
    QueryOfBuiltUrl(UpstreamSearch, parameters);
    assert parameters[0][|"term="|..] == encoded;
    DecodeEncode(term);
  }

  lemma ParametersAreClean(term: string, media: Option<string>)
    requires Clean(MediaOrDefault(media))
    ensures forall i :: 0 <= i < |SearchParameters(term, media)| ==> Clean(SearchParameters(term, media)[i])
  {
    EncodedIsClean(term);
    CleanConcat("term=", EncodeURIComponent(term));
    CleanConcat("media=", MediaOrDefault(media));
  }

  /** The endpoint has no query or fragment of its own. */
  lemma BaseIsClean()
    ensures '?' !in UpstreamSearch && '#' !in UpstreamSearch
  {
  }

  /**
   * The media value is written into the URL unencoded and unchecked, so a
   * request can add parameters of its own: `media=x&limit=200` reaches the
   * catalogue as a media parameter and an extra limit before the server's.
   */
  lemma MediaCanAddParameters(term: string, media: string, extra: string)
    requires media != "" && Clean(media) && Clean(extra)
    ensures QueryParameters(SearchUrl(term, Some(media + "&" + extra)))
         == ["term=" + EncodeURIComponent(term), "media=" + media, extra, "limit=25"]
  {
    var encoded := EncodeURIComponent(term);
    var parameters := ["term=" + encoded, "media=" + media, extra, "limit=25"];
    EncodedIsClean(term);
    InjectedUrlShape(term, media, extra);
    InjectedParametersClean(encoded, media, extra);
    BaseIsClean();
    QueryOfBuiltUrl(UpstreamSearch, parameters);
  }

  lemma InjectedParametersClean(encoded: string, media: string, extra: string)
    requires Clean(encoded) && Clean(media) && Clean(extra)
    ensures var parameters := ["term=" + encoded, "media=" + media, extra, "limit=25"];
      forall i :: 0 <= i < |parameters| ==> Clean(parameters[i])
  {
    CleanConcat("term=", encoded);
    CleanConcat("media=", media);
  }

  lemma InjectedUrlShape(term: string, media: string, extra: string)
    requires media != ""
    ensures SearchUrl(term, Some(media + "&" + extra))
         == UpstreamSearch + "?" + Join(["term=" + EncodeURIComponent(term), "media=" + media, extra, "limit=25"], '&')
  {
    var injected := Some(media + "&" + extra);
    assert MediaOrDefault(injected) == media + "&" + extra;
    InjectedJoin("term=" + EncodeURIComponent(term), media, extra);
  }

  lemma InjectedJoin(first: string, media: string, extra: string)
    ensures Join([first, "media=" + (media + "&" + extra), "limit=25"], '&')
         == Join([first, "media=" + media, extra, "limit=25"], '&')
  {
    JoinThree(first, "media=" + (media + "&" + extra), "limit=25", '&');
    var parameters := [first, "media=" + media, extra, "limit=25"];
    assert parameters[1..] == ["media=" + media, extra, "limit=25"];
    JoinThree("media=" + media, extra, "limit=25", '&');
    assert "media=" + (media + "&" + extra) == ("media=" + media) + ['&'] + extra;
  }

  /** The parsed body of an upstream response. */
  datatype Body = Parsed(data: Json) | Unparsable(message: string)

  /** What the upstream fetch comes to. */
  datatype Upstream =
    | Responded(status: nat, body: Body)   // a response; its body is read only when the status is OK
    | Unreachable(message: string)         // fetch threw (network failure) with this message

  /** `response.ok`: a 2xx status. */
  predicate IsOk(status: nat) {
    200 <= status <= 299
  }

  const StatusPrefix := "iTunes API responded with status: "

  /** The message of the error thrown for a non-OK upstream status; it names the status in decimal. */
  function StatusMessage(status: nat): (message: string)
    ensures |message| > |StatusPrefix| && message[..|StatusPrefix|] == StatusPrefix
    ensures forall i :: |StatusPrefix| <= i < |message| ==> '0' <= message[i] <= '9'
    ensures DigitsValue(message[|StatusPrefix|..]) == status
  {
    var digits := Decimal(status);
    assert (StatusPrefix + digits)[|StatusPrefix|..] == digits;
    StatusPrefix + digits
  }

  const FetchFailed := "Failed to fetch data"

  /**
   * The `/api/search` route handler. `upstream` answers each URL; `requested`
   * is the URL fetched, None when the term check answered first.
   */
  method SearchHandler(query: Query, upstream: string -> Upstream)
    returns (response: Response, requested: Option<string>)
    ensures requested.None? <==> !Truthy(query.term)
    ensures !Truthy(query.term) ==> response == Response(400, ErrorBody("Search term is required"))
    ensures Truthy(query.term) ==> requested == Some(SearchUrl(query.term.value, query.media))
    ensures requested.Some? ==>
      match upstream(requested.value)
      case Unreachable(message) =>
        response == Response(500, ErrorBodyWithDetails(FetchFailed, message))
      case Responded(status, body) =>
        if !IsOk(status) then response == Response(500, ErrorBodyWithDetails(FetchFailed, StatusMessage(status)))
        else match body
          case Unparsable(message) => response == Response(500, ErrorBodyWithDetails(FetchFailed, message))
          case Parsed(data) => response == Response(200, data)
    ensures response.status == 200 || IsErrorEnvelope(response)
  {
    if !Truthy(query.term) {
      return Response(400, ErrorBody("Search term is required")), None;
    }
    var url := SearchUrl(query.term.value, query.media);
    requested := Some(url);
    match upstream(url) {
      case Unreachable(message) =>
        response := Response(500, ErrorBodyWithDetails(FetchFailed, message));
      case Responded(status, body) =>
        if !IsOk(status) {
          response := Response(500, ErrorBodyWithDetails(FetchFailed, StatusMessage(status)));
        } else {
          match body {
            case Unparsable(message) =>
              response := Response(500, ErrorBodyWithDetails(FetchFailed, message));
            case Parsed(data) =>
              response := Response(200, data);
          }
        }
    }
  }

  /** The last middleware: any error that reaches it becomes a 500 naming the error's message. */
  function ErrorHandler(message: string): (response: Response)
    ensures response.status == 500 && IsErrorEnvelope(response)
    ensures Field(response.body, "error") == Str("Something broke!")
    ensures Field(response.body, "details") == Str(message)
  {
    Response(500, ErrorBodyWithDetails("Something broke!", message))
  }

  // ------------------------------------------------------------ the route

  /**
   * `GET /api/search`: the gate, then the handler when the gate calls `next()`.
   * Outside development, nothing is fetched unless the token verified.
   */
  method ServeSearch(req: Request, nodeEnv: Option<string>, verify: string -> Option<Json>,
                     upstream: string -> Upstream)
    returns (response: Response, requested: Option<string>)
    modifies req
    ensures requested.Some? && nodeEnv != Some(Development) ==>
      Truthy(ExtractToken(req.authorization)) && verify(ExtractToken(req.authorization).value).Some?
    ensures requested.Some? ==> Truthy(req.query.term)
    ensures nodeEnv == Some(Development) ==> req.user == old(req.user)
    ensures response.status in {200, 400, 401, 403, 500}
    ensures response.status == 200 || IsErrorEnvelope(response)
  {
    var outcome := AuthenticateToken(req, nodeEnv, verify);
    match outcome {
      case Halt(r) =>
        return r, None;
      case Next =>
        response, requested := SearchHandler(req.query, upstream);
    }
  }
}
