/**
  `GET /get_player_stats`: five parameter checks, the region's credential,
  the two login stages (each in its own `try`, an exception there answering
  502), and the stats fetch (its own `try`, whose `except` list names two
  classes that are never imported).
 */
module PlayerStats {
  import opened Wrappers
  import opened PyText
  import opened Gateway

  /** The failures the handler reports, one per `"error"` title. */
  datatype StatsError =
    | MissingParameter
    | InvalidUid
    | InvalidServer(server: string, available: seq<string>)
    | InvalidGamemode
    | InvalidMatchmode
    | GarenaAuthFailed
    | GarenaAuthError
    | MajorLoginFailed
    | MajorLoginError
    | NoStatsData
    | InvalidRequestParameters
    | ConnectionFailure
    | DataProcessingError
    | ExternalApiError
    | StatsRetrievalError
    | InternalServerError

  function ErrorStatus(e: StatsError): int {
    match e
    case MissingParameter | InvalidUid | InvalidServer(_, _) | InvalidGamemode | InvalidMatchmode => 400
    case GarenaAuthFailed | MajorLoginFailed => 401
    case GarenaAuthError | MajorLoginError | ExternalApiError => 502
    case NoStatsData => 404
    case InvalidRequestParameters => 400
    case ConnectionFailure => 503
    case DataProcessingError | StatsRetrievalError | InternalServerError => 500
  }

  /** The body's `"error"` field. */
  function ErrorTitle(e: StatsError): string {
    match e
    case MissingParameter => "Missing required parameter"
    case InvalidUid => "Invalid UID"
    case InvalidServer(_, _) => "Invalid server"
    case InvalidGamemode => "Invalid gamemode"
    case InvalidMatchmode => "Invalid matchmode"
    case GarenaAuthFailed => "Garena authentication failed"
    case GarenaAuthError => "Garena authentication error"
    case MajorLoginFailed => "Major login failed"
    case MajorLoginError => "Major login error"
    case NoStatsData => "No stats data"
    case InvalidRequestParameters => "Invalid request parameters"
    case ConnectionFailure => "Connection error"
    case DataProcessingError => "Data processing error"
    case ExternalApiError => "External API error"
    case StatsRetrievalError => "Stats retrieval error"
    case InternalServerError => "Internal server error"
  }

  /** The `metadata` of a success body: the normalised parameters and the uid as given. */
  datatype Metadata = Metadata(server: string, uid: string, gamemode: string, matchmode: string)

  /** `{"success": true, "data": ..., "metadata": ...}`, or `{"success": false, "error": ...}`. */
  datatype StatsBody = Stats(data: Value, metadata: Metadata) | Failure(error: StatsError)

  datatype StatsResponse = StatsResponse(status: int, body: StatsBody, calls: seq<Call>)

  /** `request.args.get('server', 'IND').upper()`. */
  function Server(args: Args): string {
    Upper(GetOr(args, "server", "IND"))
  }

  function Uid(args: Args): Option<string> {
    Get(args, "uid")
  }

  /** `request.args.get('gamemode', 'br').lower()`. */
  function Gamemode(args: Args): string {
    Lower(GetOr(args, "gamemode", "br"))
  }

  /** `request.args.get('matchmode', 'CAREER').upper()`. */
  function Matchmode(args: Args): string {
    Upper(GetOr(args, "matchmode", "CAREER"))
  }

  const Gamemodes: seq<string> := ["br", "cs"]
  const Matchmodes: seq<string> := ["CAREER", "NORMAL", "RANKED"]

  /** `uid.isdigit()` on a present, non-empty uid. */
  predicate UidAccepted(args: Args) {
    Present(Uid(args)) && IsDigitString(Uid(args).value)
  }

  /** All five checks pass. */
  predicate StatsAccepted(args: Args, accounts: Registry) {
    && UidAccepted(args)
    && Contains(accounts, Server(args))
    && Gamemode(args) in Gamemodes
    && Matchmode(args) in Matchmodes
  }

  /**
    The checks made before any call, in the code's order; each failure is
    reported by the first check that fails, and the unknown-server failure
    lists the registry's regions.
   */
  function ValidateStats(args: Args, accounts: Registry): (r: Result<Metadata, StatsError>)
    ensures r.Ok? <==> StatsAccepted(args, accounts)
    ensures r.Ok? ==> r.value == Metadata(Server(args), Uid(args).value, Gamemode(args), Matchmode(args))
    ensures r.Err? ==> ErrorStatus(r.error) == 400
    ensures r == Err(MissingParameter) <==> !Present(Uid(args))
    ensures r == Err(InvalidUid) <==> Present(Uid(args)) && !IsDigitString(Uid(args).value)
    ensures r == Err(InvalidServer(Server(args), Regions(accounts))) <==>
              UidAccepted(args) && !Contains(accounts, Server(args))
    ensures r == Err(InvalidGamemode) <==>
              UidAccepted(args) && Contains(accounts, Server(args)) && Gamemode(args) !in Gamemodes
    ensures r == Err(InvalidMatchmode) <==>
              UidAccepted(args) && Contains(accounts, Server(args)) && Gamemode(args) in Gamemodes
              && Matchmode(args) !in Matchmodes
  {
    var server := Server(args);
    var uid := Uid(args);
    if !Present(uid) then Err(MissingParameter)
    else if !IsDigitString(uid.value) then Err(InvalidUid)
    else if !Contains(accounts, server) then Err(InvalidServer(server, Regions(accounts)))
    else if Gamemode(args) !in Gamemodes then Err(InvalidGamemode)
    else if Matchmode(args) !in Matchmodes then Err(InvalidMatchmode)
    else Ok(Metadata(server, uid.value, Gamemode(args), Matchmode(args)))
  }

  function Reject(e: StatsError, calls: seq<Call>): StatsResponse {
    StatsResponse(ErrorStatus(e), Failure(e), calls)
  }

  /**
    Where an exception raised in the stats stage ends. `ValueError` and
    `ConnectionError` have their own clauses; for anything else, evaluating
    the next clause's `ProtobufError` raises `NameError`, since that name is
    never bound, and the outer handler answers.
   */
  function FetchFailure(e: Exc): (f: StatsError)
    ensures f == InvalidRequestParameters <==> e == ValueError
    ensures f == ConnectionFailure <==> e == ConnectionError
    ensures e != ValueError && e != ConnectionError ==> f == InternalServerError
    ensures f != DataProcessingError && f != ExternalApiError && f != StatsRetrievalError
  {
    match e
    case ValueError => InvalidRequestParameters
    case ConnectionError => ConnectionFailure
    case _ => InternalServerError
  }

  /**
    The part of the handler after the checks: the region's credential, the
    two login stages and the fetch. A `KeyError` on the credential is raised
    inside stage 1's `try`, one on `open_id` inside stage 2's, and one on
    `serverUrl` inside the fetch's, where it meets the unbound names.
   */
  function RunStats(credential: map<string, string>, q: Metadata, up: Upstreams): (r: StatsResponse)
    ensures r.status == 200 <==> r.body.Stats?
    ensures r.body.Failure? ==> r.status == ErrorStatus(r.body.error)
    ensures r.status in {200, 400, 401, 404, 500, 502, 503}
    ensures r.calls == [] <==> !HasCredential(credential)
  {
    if !HasCredential(credential) then Reject(GarenaAuthError, [])
    else
      var login := LoginCall(credential);
      match up.garenaToken
      case Raises(_) => Reject(GarenaAuthError, [login])
      case Returns(auth) =>
        if !Truthy(auth) || !Has(auth, "access_token") then Reject(GarenaAuthFailed, [login])
        else if !Has(auth, "open_id") then Reject(MajorLoginError, [login])
        else
          var major := MajorLoginCall(up.garenaToken);
          match up.majorLogin
          case Raises(_) => Reject(MajorLoginError, [login, major])
          case Returns(session) =>
            if !Truthy(session) || !Has(session, "token") then Reject(MajorLoginFailed, [login, major])
            else if !Has(session, "serverUrl") then Reject(InternalServerError, [login, major])
            else
              var fetch := PlayerStats(session.fields["token"], session.fields["serverUrl"], q.gamemode, q.uid, q.matchmode);
              match up.fetch
              case Raises(e) => Reject(FetchFailure(e), [login, major, fetch])
              case Returns(data) =>
                if !Truthy(data) then Reject(NoStatsData, [login, major, fetch])
                else StatsResponse(200, Stats(data, q), [login, major, fetch])
  }

  /** The handler: the checks, then the pipeline on the region's credential. */
  function HandleStats(args: Args, accounts: Registry, up: Upstreams): (r: StatsResponse)
    ensures r.calls != [] ==> StatsAccepted(args, accounts)
    ensures !StatsAccepted(args, accounts) ==> r.status == 400 && r.calls == []
    ensures ValidateStats(args, accounts).Err? ==> r == Reject(ValidateStats(args, accounts).error, [])
    ensures ValidateStats(args, accounts).Ok? ==>
              r == RunStats(Lookup(accounts, Server(args)), ValidateStats(args, accounts).value, up)
  {
    match ValidateStats(args, accounts)
    case Err(e) => Reject(e, [])
    case Ok(q) => RunStats(Lookup(accounts, q.server), q, up)
  }

  /**
    Stage 1 decides alone when it does not issue an access token: raising
    (or a credential without `uid` or `password`) is 502, a falsy reply or
    one without `access_token` is 401; in both cases stage 2 is not called.
   */
  lemma {:induction false} Stage1Outcomes(credential: map<string, string>, q: Metadata, up: Upstreams)
    ensures var r := RunStats(credential, q, up);
      && (!HasCredential(credential) || up.garenaToken.Raises? ==>
            r.status == 502 && r.body == Failure(GarenaAuthError) && |r.calls| <= 1)
      && (HasCredential(credential) && up.garenaToken.Returns?
          && (!Truthy(up.garenaToken.value) || !Has(up.garenaToken.value, "access_token")) ==>
            r == StatsResponse(401, Failure(GarenaAuthFailed), [LoginCall(credential)]))
  {
    if HasCredential(credential) && up.garenaToken.Returns? {
      var auth := up.garenaToken.value;
      if !Truthy(auth) || !Has(auth, "access_token") {
        assert RunStats(credential, q, up) == Reject(GarenaAuthFailed, [LoginCall(credential)]);
      }
    }
  }

  /**
    Stage 2 raising is 502, and so is a stage-1 reply without `open_id`
    (the `KeyError` is raised inside stage 2's `try`); a falsy stage-2 reply
    or one without `token` is 401. In each case the fetch is not called.
   */
  lemma Stage2Outcomes(credential: map<string, string>, q: Metadata, up: Upstreams)
    requires HasCredential(credential) && up.garenaToken.Returns?
    requires Truthy(up.garenaToken.value) && Has(up.garenaToken.value, "access_token")
    ensures var r := RunStats(credential, q, up);
      && (!Has(up.garenaToken.value, "open_id") ==>
            r == StatsResponse(502, Failure(MajorLoginError), [LoginCall(credential)]))
      && (TokenIssued(up.garenaToken) && up.majorLogin.Raises? ==>
            r == StatsResponse(502, Failure(MajorLoginError), [LoginCall(credential), MajorLoginCall(up.garenaToken)]))
      && (TokenIssued(up.garenaToken) && up.majorLogin.Returns?
          && (!Truthy(up.majorLogin.value) || !Has(up.majorLogin.value, "token")) ==>
            r == StatsResponse(401, Failure(MajorLoginFailed), [LoginCall(credential), MajorLoginCall(up.garenaToken)]))
  {
  }

  /**
    Stage 2 is called only after stage 1 issued both tokens, and the fetch
    only after stage 2 opened a session, with the session's token and URL
    and the validated parameters.
   */
  lemma StagesInOrder(credential: map<string, string>, q: Metadata, up: Upstreams)
    ensures var r := RunStats(credential, q, up);
      && |r.calls| <= 3
      && (|r.calls| >= 1 ==> r.calls[0] == LoginCall(credential))
      && (|r.calls| >= 2 <==> HasCredential(credential) && TokenIssued(up.garenaToken))
      && (|r.calls| >= 2 ==> r.calls[1] == MajorLoginCall(up.garenaToken))
      && (|r.calls| == 3 <==> HasCredential(credential) && TokenIssued(up.garenaToken) && SessionOpened(up.majorLogin))
      && (|r.calls| == 3 ==>
            var session := up.majorLogin.value.fields;
            r.calls[2] == PlayerStats(session["token"], session["serverUrl"], q.gamemode, q.uid, q.matchmode))
  {
  }

  /**
    Once the fetch is called: an empty result is 404, a non-empty one is 200
    carrying it and the metadata, `ValueError` is 400, `ConnectionError` is
    503, and any other exception is the outer 500.
   */
  lemma FetchOutcomes(credential: map<string, string>, q: Metadata, up: Upstreams)
    requires HasCredential(credential) && TokenIssued(up.garenaToken) && SessionOpened(up.majorLogin)
    ensures var r := RunStats(credential, q, up);
      && (up.fetch.Returns? && !Truthy(up.fetch.value) ==> r.status == 404 && r.body == Failure(NoStatsData))
      && (up.fetch.Returns? && Truthy(up.fetch.value) ==> r.status == 200 && r.body == Stats(up.fetch.value, q))
      && (up.fetch == Raises(ValueError) ==> r.status == 400 && r.body == Failure(InvalidRequestParameters))
      && (up.fetch == Raises(ConnectionError) ==> r.status == 503 && r.body == Failure(ConnectionFailure))
      && (up.fetch.Raises? && up.fetch.exc !in {ValueError, ConnectionError} ==>
            r.status == 500 && r.body == Failure(InternalServerError))
  {
  }

  /**
    A stage-2 reply with `token` but without `serverUrl` ends in the outer
    500: the `KeyError` is raised inside the fetch's `try`, whose clause
    list fails on the unbound `ProtobufError`.
   */
  lemma MissingServerUrl(credential: map<string, string>, q: Metadata, up: Upstreams)
    requires HasCredential(credential) && TokenIssued(up.garenaToken)
    requires up.majorLogin.Returns? && Truthy(up.majorLogin.value) && Has(up.majorLogin.value, "token")
    requires !Has(up.majorLogin.value, "serverUrl")
    ensures RunStats(credential, q, up) ==
              StatsResponse(500, Failure(InternalServerError), [LoginCall(credential), MajorLoginCall(up.garenaToken)])
  {
  }

  /**
    Success is exactly: both stages succeed and the fetch returns a
    non-empty result, which the answer carries with the metadata.
   */
  lemma SuccessExactly(credential: map<string, string>, q: Metadata, up: Upstreams)
    ensures var r := RunStats(credential, q, up);
      && (r.status == 200 <==>
            HasCredential(credential) && TokenIssued(up.garenaToken) && SessionOpened(up.majorLogin)
            && up.fetch.Returns? && Truthy(up.fetch.value))
      && (r.status == 200 ==> r.body == Stats(up.fetch.value, q))
  {
  }

  /** In the pipeline, no failure is one of the three unreachable handlers'. */
  lemma {:induction false} PipelineNeverUnreachable(credential: map<string, string>, q: Metadata, up: Upstreams)
    ensures var r := RunStats(credential, q, up);
      r.body.Failure? ==> r.body.error !in {DataProcessingError, ExternalApiError, StatsRetrievalError}
  {
    if HasCredential(credential) && TokenIssued(up.garenaToken) && SessionOpened(up.majorLogin) && up.fetch.Raises? {
      assert RunStats(credential, q, up).body == Failure(FetchFailure(up.fetch.exc));
    }
  }

  /**
    The handlers for `ProtobufError`, `APIError` and the stage's own
    `except Exception` are never reached.
   */
  lemma {:induction false} UnreachableHandlers(args: Args, accounts: Registry, up: Upstreams)
    ensures var r := HandleStats(args, accounts, up);
      r.body.Failure? ==> r.body.error !in {DataProcessingError, ExternalApiError, StatsRetrievalError}
  {
    match ValidateStats(args, accounts)
    case Err(e) =>
      assert ErrorStatus(e) == 400;
    case Ok(q) =>
      PipelineNeverUnreachable(Lookup(accounts, q.server), q, up);
  }

  /**
    A 200 answer echoes the upper-cased server, the uid exactly as given,
    the lower-cased gamemode and the upper-cased matchmode, and carries a
    non-empty result.
   */
  lemma {:induction false} SuccessMetadata(args: Args, accounts: Registry, up: Upstreams)
    ensures var r := HandleStats(args, accounts, up);
      r.status == 200 ==>
        && StatsAccepted(args, accounts)
        && r.body.metadata == Metadata(Server(args), Uid(args).value, Gamemode(args), Matchmode(args))
        && IsDigitString(r.body.metadata.uid)
        && up.fetch.Returns? && Truthy(up.fetch.value) && r.body.data == up.fetch.value
  {
    match ValidateStats(args, accounts)
    case Err(e) =>
    case Ok(q) =>
      SuccessExactly(Lookup(accounts, q.server), q, up);
  }
}
