/**
  `GET /get_search_account_by_keyword`: check the keyword, check the region,
  run the two-stage login, then search. Every exception lands in the
  handler's outer `except KeyError` (500 "Missing configuration") or
  `except Exception` (500 "Internal server error").
 */
module KeywordSearch {
  import opened Wrappers
  import opened PyText
  import opened Gateway

  /** The failures the handler reports, one per `return json.dumps({"error": ...})`. */
  datatype SearchError =
    | KeywordRequired
    | KeywordTooShort
    | InvalidServer(region: string)
    | AuthenticationFailed
    | MajorLoginFailed
    | MissingConfiguration
    | InternalServerError

  function ErrorStatus(e: SearchError): int {
    match e
    case KeywordRequired | KeywordTooShort | InvalidServer(_) => 400
    case AuthenticationFailed | MajorLoginFailed => 401
    case MissingConfiguration | InternalServerError => 500
  }

  /** The body's `error` text; for the two caught exceptions, the part before the exception's own message. */
  function ErrorText(e: SearchError): string {
    match e
    case KeywordRequired => "Keyword parameter is required"
    case KeywordTooShort => "Keyword must be at least 3 characters long"
    case InvalidServer(region) => "Invalid server: " + region
    case AuthenticationFailed => "Authentication failed"
    case MajorLoginFailed => "Major login failed"
    case MissingConfiguration => "Missing configuration: "
    case InternalServerError => "Internal server error: "
  }

  /** The success body is the search result itself, unwrapped. */
  datatype SearchBody = Results(results: Value) | Error(error: SearchError)

  datatype SearchResponse = SearchResponse(status: int, body: SearchBody, calls: seq<Call>)

  /** A request that passed the checks: the upper-cased region and the keyword as given. */
  datatype SearchQuery = SearchQuery(region: string, keyword: string)

  /** `request.args.get('server', 'IND').upper()`. */
  function Region(args: Args): string {
    Upper(GetOr(args, "server", "IND"))
  }

  function Keyword(args: Args): Option<string> {
    Get(args, "keyword")
  }

  /** The keyword passes both checks: present, non-empty, and at least 3 characters once stripped. */
  predicate KeywordAccepted(args: Args) {
    Present(Keyword(args)) && |Strip(Keyword(args).value)| >= 3
  }

  /**
    The checks made before any call, in the code's order: keyword present,
    keyword long enough, region known.
   */
  function ValidateSearch(args: Args, accounts: Registry): (r: Result<SearchQuery, SearchError>)
    ensures r.Ok? <==> KeywordAccepted(args) && Contains(accounts, Region(args))
    ensures r.Ok? ==> r.value == SearchQuery(Region(args), Keyword(args).value)
    ensures r.Err? ==> ErrorStatus(r.error) == 400
    ensures r == Err(KeywordRequired) <==> !Present(Keyword(args))
    ensures r == Err(KeywordTooShort) <==> Present(Keyword(args)) && |Strip(Keyword(args).value)| < 3
    ensures r == Err(InvalidServer(Region(args))) <==> KeywordAccepted(args) && !Contains(accounts, Region(args))
  {
    var region := Region(args);
    var term := Keyword(args);
    if !Present(term) then Err(KeywordRequired)
    else if |Strip(term.value)| < 3 then Err(KeywordTooShort)
    else if !Contains(accounts, region) then Err(InvalidServer(region))
    else Ok(SearchQuery(region, term.value))
  }

  /** The outer handlers: `except KeyError`, then `except Exception`. */
  function Caught(e: Exc): SearchError {
    if e == KeyError then MissingConfiguration else InternalServerError
  }

  function Reject(e: SearchError, calls: seq<Call>): SearchResponse {
    SearchResponse(ErrorStatus(e), Error(e), calls)
  }

  /**
    The part of the handler after the checks: the region's credential, the
    two login stages and the search. Each `x["key"]` on a dict without that
    key raises `KeyError`, which the outer handler reports as a missing
    configuration.
   */
  function RunSearch(credential: map<string, string>, keyword: string, up: Upstreams): (r: SearchResponse)
    ensures r.status == 200 <==> r.body.Results?
    ensures r.body.Error? ==> r.status == ErrorStatus(r.body.error)
    ensures r.status in {200, 401, 500}
    ensures r.calls == [] <==> !HasCredential(credential)
  {
    if !HasCredential(credential) then Reject(MissingConfiguration, [])
    else
      var login := LoginCall(credential);
      match up.garenaToken
      case Raises(e) => Reject(Caught(e), [login])
      case Returns(auth) =>
        if !Truthy(auth) || !Has(auth, "access_token") then Reject(AuthenticationFailed, [login])
        else if !Has(auth, "open_id") then Reject(MissingConfiguration, [login])
        else
          var major := MajorLoginCall(up.garenaToken);
          match up.majorLogin
          case Raises(e) => Reject(Caught(e), [login, major])
          case Returns(session) =>
            if !Truthy(session) || !Has(session, "token") then Reject(MajorLoginFailed, [login, major])
            else if !Has(session, "serverUrl") then Reject(MissingConfiguration, [login, major])
            else
              var search := SearchAccounts(session.fields["serverUrl"], session.fields["token"], keyword);
              match up.fetch
              case Raises(e) => Reject(Caught(e), [login, major, search])
              case Returns(results) => SearchResponse(200, Results(results), [login, major, search])
  }

  /**
    The handler. The collaborators' outcomes are inputs; `calls` lists the
    calls actually made, in order. A rejected request makes no call.
   */
  function HandleSearch(args: Args, accounts: Registry, up: Upstreams): (r: SearchResponse)
    ensures r.status in {200, 400, 401, 500}
    ensures r.calls != [] ==> KeywordAccepted(args) && Contains(accounts, Region(args))
    ensures r.status == 400 <==> !(KeywordAccepted(args) && Contains(accounts, Region(args)))
    ensures ValidateSearch(args, accounts).Err? ==> r == Reject(ValidateSearch(args, accounts).error, [])
    ensures ValidateSearch(args, accounts).Ok? ==>
              r == RunSearch(Lookup(accounts, Region(args)), Keyword(args).value, up)
  {
    match ValidateSearch(args, accounts)
    case Err(e) => Reject(e, [])
    case Ok(q) => RunSearch(Lookup(accounts, q.region), q.keyword, up)
  }

  /**
    Each call is made only when the one before it succeeded: the session
    exchange only after stage 1 issued both tokens, the search only after
    stage 2 opened a session; and each is made with what the previous one
    returned.
   */
  lemma StagesInOrder(credential: map<string, string>, keyword: string, up: Upstreams)
    ensures var r := RunSearch(credential, keyword, up);
      && |r.calls| <= 3
      && (|r.calls| >= 1 ==> r.calls[0] == LoginCall(credential))
      && (|r.calls| >= 2 <==> HasCredential(credential) && TokenIssued(up.garenaToken))
      && (|r.calls| >= 2 ==> r.calls[1] == MajorLoginCall(up.garenaToken))
      && (|r.calls| == 3 <==> HasCredential(credential) && TokenIssued(up.garenaToken) && SessionOpened(up.majorLogin))
      && (|r.calls| == 3 ==>
            r.calls[2] == SearchAccounts(up.majorLogin.value.fields["serverUrl"], up.majorLogin.value.fields["token"], keyword))
  {
  }

  /** A stage-1 reply that is falsy or lacks `access_token` gives 401, and no later call is made. */
  lemma Stage1ShortCircuit(credential: map<string, string>, keyword: string, up: Upstreams)
    requires HasCredential(credential)
    requires up.garenaToken.Returns?
    requires !Truthy(up.garenaToken.value) || !Has(up.garenaToken.value, "access_token")
    ensures RunSearch(credential, keyword, up) ==
              SearchResponse(401, Error(AuthenticationFailed), [LoginCall(credential)])
  {
  }

  /** A stage-2 reply that is falsy or lacks `token` gives 401, and the search is not made. */
  lemma Stage2ShortCircuit(credential: map<string, string>, keyword: string, up: Upstreams)
    requires HasCredential(credential) && TokenIssued(up.garenaToken)
    requires up.majorLogin.Returns?
    requires !Truthy(up.majorLogin.value) || !Has(up.majorLogin.value, "token")
    ensures RunSearch(credential, keyword, up) ==
              SearchResponse(401, Error(MajorLoginFailed), [LoginCall(credential), MajorLoginCall(up.garenaToken)])
  {
  }

  /**
    A `KeyError` — a credential without `uid` or `password`, a stage-1 reply
    without `open_id`, a stage-2 reply without `serverUrl`, or one a
    collaborator raises — is 500 "Missing configuration"; any other exception
    is 500 "Internal server error".
   */
  lemma ExceptionsAre500(credential: map<string, string>, keyword: string, up: Upstreams)
    ensures var r := RunSearch(credential, keyword, up);
      && (!HasCredential(credential) ==> r.body == Error(MissingConfiguration))
      && (HasCredential(credential) && up.garenaToken.Raises? ==>
            r.body == Error(Caught(up.garenaToken.exc)))
      && (HasCredential(credential) && up.garenaToken.Returns? && Truthy(up.garenaToken.value)
          && Has(up.garenaToken.value, "access_token") && !Has(up.garenaToken.value, "open_id") ==>
            r.body == Error(MissingConfiguration))
      && (HasCredential(credential) && TokenIssued(up.garenaToken) && up.majorLogin.Raises? ==>
            r.body == Error(Caught(up.majorLogin.exc)))
      && (HasCredential(credential) && TokenIssued(up.garenaToken) && up.majorLogin.Returns?
          && Truthy(up.majorLogin.value) && Has(up.majorLogin.value, "token")
          && !Has(up.majorLogin.value, "serverUrl") ==>
            r.body == Error(MissingConfiguration))
      && (HasCredential(credential) && TokenIssued(up.garenaToken) && SessionOpened(up.majorLogin)
          && up.fetch.Raises? ==>
            r.body == Error(Caught(up.fetch.exc)))
  {
  }

  /**
    Success is exactly: both stages succeed and the search returns. The result
    is passed on as it is, even when it is empty: this endpoint never answers
    404.
   */
  lemma SuccessExactly(credential: map<string, string>, keyword: string, up: Upstreams)
    ensures var r := RunSearch(credential, keyword, up);
      && (r.status == 200 <==>
            HasCredential(credential) && TokenIssued(up.garenaToken) && SessionOpened(up.majorLogin)
            && up.fetch.Returns?)
      && (r.status == 200 ==> r.body == Results(up.fetch.value))
  {
  }
}
