/**
  `GET /get_player_personal_show`: the uid parsed with `int()`, the region,
  the gallery flag's token table, the call-sign source, the stored
  credential, then the two login stages and the fetch. This handler has a
  single `try`: every exception ends in its 500 `INTERNAL_SERVER_ERROR`.
 */
module PersonalShow {
  import opened Wrappers
  import opened PyText
  import opened Gateway

  /** The failures the handler reports, one per `"code"`. */
  datatype ShowError =
    | MissingUid
    | InvalidUidFormat
    | InvalidUidRange
    | ServerNotFound(server: string, availableServers: seq<string>)
    | InvalidGalleryParam
    | InvalidCallSignSrc
    | InvalidCallSignFormat
    | ServerConfigError(server: string)
    | GarenaAuthFailed
    | MajorLoginFailed
    | PlayerDataNotFound(uid: int)
    | InternalServerError

  function ErrorStatus(e: ShowError): int {
    match e
    case MissingUid | InvalidUidFormat | InvalidUidRange | ServerNotFound(_, _) => 400
    case InvalidGalleryParam | InvalidCallSignSrc | InvalidCallSignFormat => 400
    case ServerConfigError(_) | InternalServerError => 500
    case GarenaAuthFailed | MajorLoginFailed => 401
    case PlayerDataNotFound(_) => 404
  }

  /** The body's `"code"` field. */
  function Code(e: ShowError): string {
    match e
    case MissingUid => "MISSING_UID"
    case InvalidUidFormat => "INVALID_UID_FORMAT"
    case InvalidUidRange => "INVALID_UID_RANGE"
    case ServerNotFound(_, _) => "SERVER_NOT_FOUND"
    case InvalidGalleryParam => "INVALID_GALLERY_PARAM"
    case InvalidCallSignSrc => "INVALID_CALL_SIGN_SRC"
    case InvalidCallSignFormat => "INVALID_CALL_SIGN_FORMAT"
    case ServerConfigError(_) => "SERVER_CONFIG_ERROR"
    case GarenaAuthFailed => "GARENA_AUTH_FAILED"
    case MajorLoginFailed => "MAJOR_LOGIN_FAILED"
    case PlayerDataNotFound(_) => "PLAYER_DATA_NOT_FOUND"
    case InternalServerError => "INTERNAL_SERVER_ERROR"
  }

  /** The not-found message, `f"No player data found for UID: {uid_int}"`. */
  function NotFoundMessage(uid: int): string {
    "No player data found for UID: " + FormatInt(uid)
  }

  /** The success body is the fetched data itself; a failure is `{"status": "error", ..., "code": ...}`. */
  datatype ShowBody = Show(data: Value) | Failure(error: ShowError)

  datatype ShowResponse = ShowResponse(status: int, body: ShowBody, calls: seq<Call>)

  /** A request that passed the parameter checks, with its parsed values. */
  datatype ShowQuery = ShowQuery(server: string, uid: int, needGalleryInfo: bool, callSignSrc: int)

  /** `request.args.get('server', 'IND').upper()`. */
  function Server(args: Args): string {
    Upper(GetOr(args, "server", "IND"))
  }

  function Uid(args: Args): Option<string> {
    Get(args, "uid")
  }

  const TrueTokens: seq<string> := ["true", "1", "yes"]
  const FalseTokens: seq<string> := ["false", "0", "no"]

  /**
    `need_gallery_info`: absent is `False`; a given string is looked up,
    lower-cased, in the two token lists; any other string is rejected.
   */
  function GalleryFlag(p: Option<string>): (r: Option<bool>)
    ensures p.None? ==> r == Some(false)
    ensures p.Some? && r == Some(true) ==> Lower(p.value) in TrueTokens
    ensures p.Some? && r == Some(false) ==> Lower(p.value) in FalseTokens
    ensures p.Some? && r.None? ==> Lower(p.value) !in TrueTokens + FalseTokens
  {
    match p
    case None => Some(false)
    case Some(s) =>
      if Lower(s) in TrueTokens then Some(true)
      else if Lower(s) in FalseTokens then Some(false)
      else None
  }

  /** `int(request.args.get('call_sign_src', 7))`: the default needs no parsing. */
  function CallSignSrc(p: Option<string>): (r: Option<int>)
    ensures p.None? ==> r == Some(7)
    ensures p.Some? ==> r == ParseInt(p.value)
  {
    match p
    case None => Some(7)
    case Some(s) => ParseInt(s)
  }

  /** `uid` is present and `int(uid)` succeeds with a positive value. */
  predicate UidAccepted(args: Args) {
    Present(Uid(args)) && ParseInt(Uid(args).value).Some? && ParseInt(Uid(args).value).value > 0
  }

  /** Every parameter check passes. */
  predicate ShowAccepted(args: Args, accounts: Registry) {
    && UidAccepted(args)
    && Contains(accounts, Server(args))
    && GalleryFlag(Get(args, "need_gallery_info")).Some?
    && CallSignSrc(Get(args, "call_sign_src")).Some?
    && CallSignSrc(Get(args, "call_sign_src")).value >= 0
  }

  /** The checks made before the credential is looked at, in the code's order. */
  function ValidateShow(args: Args, accounts: Registry): (r: Result<ShowQuery, ShowError>)
    ensures r.Ok? <==> ShowAccepted(args, accounts)
    ensures r.Err? ==> ErrorStatus(r.error) == 400
    ensures r == Err(MissingUid) <==> !Present(Uid(args))
    ensures r == Err(InvalidUidFormat) <==> Present(Uid(args)) && ParseInt(Uid(args).value).None?
    ensures r == Err(InvalidUidRange) <==>
              Present(Uid(args)) && ParseInt(Uid(args).value).Some? && ParseInt(Uid(args).value).value <= 0
    ensures r == Err(ServerNotFound(Server(args), Regions(accounts))) <==>
              UidAccepted(args) && !Contains(accounts, Server(args))
    ensures r.Ok? ==>
              && r.value.server == Server(args)
              && Some(r.value.uid) == ParseInt(Uid(args).value)
              && Some(r.value.needGalleryInfo) == GalleryFlag(Get(args, "need_gallery_info"))
              && Some(r.value.callSignSrc) == CallSignSrc(Get(args, "call_sign_src"))
  {
    var server := Server(args);
    var uid := Uid(args);
    if !Present(uid) then Err(MissingUid)
    else
      match ParseInt(uid.value)
      case None => Err(InvalidUidFormat)
      case Some(n) =>
        if n <= 0 then Err(InvalidUidRange)
        else if !Contains(accounts, server) then Err(ServerNotFound(server, Regions(accounts)))
        else
          match GalleryFlag(Get(args, "need_gallery_info"))
          case None => Err(InvalidGalleryParam)
          case Some(gallery) =>
            match CallSignSrc(Get(args, "call_sign_src"))
            case None => Err(InvalidCallSignFormat)
            case Some(src) =>
              if src < 0 then Err(InvalidCallSignSrc)
              else Ok(ShowQuery(server, n, gallery, src))
  }

  function Reject(e: ShowError, calls: seq<Call>): ShowResponse {
    ShowResponse(ErrorStatus(e), Failure(e), calls)
  }

  /**
    The part of the handler after the parameter checks: the credential check,
    the two login stages, each of which must return both of its fields, and
    the fetch. An exception from any call is the single outer 500.
   */
  function RunShow(credential: map<string, string>, q: ShowQuery, up: Upstreams): (r: ShowResponse)
    ensures r.status == 200 <==> r.body.Show?
    ensures r.body.Failure? ==> r.status == ErrorStatus(r.body.error)
    ensures r.status in {200, 401, 404, 500}
    ensures r.calls == [] <==> !HasCredential(credential)
  {
    if !HasCredential(credential) then Reject(ServerConfigError(q.server), [])
    else
      var login := LoginCall(credential);
      if up.garenaToken.Raises? then Reject(InternalServerError, [login])
      else if !TokenIssued(up.garenaToken) then Reject(GarenaAuthFailed, [login])
      else
        var major := MajorLoginCall(up.garenaToken);
        if up.majorLogin.Raises? then Reject(InternalServerError, [login, major])
        else if !SessionOpened(up.majorLogin) then Reject(MajorLoginFailed, [login, major])
        else
          var session := up.majorLogin.value.fields;
          var fetch := PersonalShow(session["serverUrl"], session["token"], q.uid, q.needGalleryInfo, q.callSignSrc);
          match up.fetch
          case Raises(_) => Reject(InternalServerError, [login, major, fetch])
          case Returns(data) =>
            if !Truthy(data) then Reject(PlayerDataNotFound(q.uid), [login, major, fetch])
            else ShowResponse(200, Show(data), [login, major, fetch])
  }

  /** The handler: the parameter checks, then the pipeline on the region's credential. */
  function HandleShow(args: Args, accounts: Registry, up: Upstreams): (r: ShowResponse)
    ensures r.calls != [] ==> ShowAccepted(args, accounts)
    ensures !ShowAccepted(args, accounts) ==> r.status == 400 && r.calls == []
    ensures ValidateShow(args, accounts).Err? ==> r == Reject(ValidateShow(args, accounts).error, [])
    ensures ValidateShow(args, accounts).Ok? ==>
              r == RunShow(Lookup(accounts, Server(args)), ValidateShow(args, accounts).value, up)
  {
    match ValidateShow(args, accounts)
    case Err(e) => Reject(e, [])
    case Ok(q) => RunShow(Lookup(accounts, q.server), q, up)
  }

  /**
    The gallery flag's token table, stated without `lower()`: a string is
    accepted as true exactly when it equals "true", "1" or "yes" up to case,
    as false exactly when it equals "false", "0" or "no" up to case, and
    rejected otherwise.
   */
  lemma {:induction false} GalleryTokens(s: string)
    ensures GalleryFlag(Some(s)) == Some(true) <==>
              EqualsIgnoreCase(s, "true") || EqualsIgnoreCase(s, "1") || EqualsIgnoreCase(s, "yes")
    ensures GalleryFlag(Some(s)) == Some(false) <==>
              EqualsIgnoreCase(s, "false") || EqualsIgnoreCase(s, "0") || EqualsIgnoreCase(s, "no")
    ensures GalleryFlag(Some(s)).None? <==>
              !EqualsIgnoreCase(s, "true") && !EqualsIgnoreCase(s, "1") && !EqualsIgnoreCase(s, "yes")
              && !EqualsIgnoreCase(s, "false") && !EqualsIgnoreCase(s, "0") && !EqualsIgnoreCase(s, "no")
  {
    forall token | token in TrueTokens + FalseTokens ensures Lower(s) == token <==> EqualsIgnoreCase(s, token) {
      LowerIsIdentity(token);
      LowerEqualsToken(s, token);
    }
  }

  /** A string with no ASCII capital letter is its own lower-case form. */
  lemma {:induction false} LowerIsIdentity(token: string)
    requires forall i :: 0 <= i < |token| ==> !('A' <= token[i] <= 'Z')
    ensures Lower(token) == token
  {
    forall i | 0 <= i < |token| ensures Lower(token)[i] == token[i] {
    }
  }

  /**
    The uid checks come first: a missing or empty uid, one `int()` rejects,
    and one that is not positive are each answered 400 with no call, whatever
    the server and the other parameters.
   */
  lemma UidChecksFirst(args: Args, accounts: Registry, up: Upstreams)
    requires !UidAccepted(args)
    ensures var r := HandleShow(args, accounts, up);
      && r.status == 400 && r.calls == []
      && r.body.error in {MissingUid, InvalidUidFormat, InvalidUidRange}
  {
  }

  /** An unknown server after a valid uid is 400 `SERVER_NOT_FOUND`, listing the registry's regions in order. */
  lemma UnknownServer(args: Args, accounts: Registry, up: Upstreams)
    requires UidAccepted(args) && !Contains(accounts, Server(args))
    ensures var r := HandleShow(args, accounts, up);
      && r == ShowResponse(400, Failure(ServerNotFound(Server(args), Regions(accounts))), [])
      && |r.body.error.availableServers| == |accounts|
      && forall i :: 0 <= i < |accounts| ==> r.body.error.availableServers[i] == accounts[i].region
  {
  }

  /**
    Without the `need_gallery_info` parameter the flag is false, and without
    `call_sign_src` the source is 7.
   */
  lemma Defaults(args: Args, accounts: Registry)
    requires "need_gallery_info" !in args && "call_sign_src" !in args
    requires UidAccepted(args) && Contains(accounts, Server(args))
    ensures ValidateShow(args, accounts) ==
              Ok(ShowQuery(Server(args), ParseInt(Uid(args).value).value, false, 7))
  {
  }

  /**
    After the uid and the server pass, a gallery flag outside the token table
    is `INVALID_GALLERY_PARAM`, and then a call-sign source `int()` rejects is
    `INVALID_CALL_SIGN_FORMAT` and a negative one `INVALID_CALL_SIGN_SRC`.
   */
  lemma ParameterCodes(args: Args, accounts: Registry)
    requires UidAccepted(args) && Contains(accounts, Server(args))
    ensures var r := ValidateShow(args, accounts);
      && (GalleryFlag(Get(args, "need_gallery_info")).None? ==> r == Err(InvalidGalleryParam))
      && (GalleryFlag(Get(args, "need_gallery_info")).Some? && CallSignSrc(Get(args, "call_sign_src")).None? ==>
            r == Err(InvalidCallSignFormat))
      && (GalleryFlag(Get(args, "need_gallery_info")).Some? && CallSignSrc(Get(args, "call_sign_src")).Some?
          && CallSignSrc(Get(args, "call_sign_src")).value < 0 ==>
            r == Err(InvalidCallSignSrc))
  {
  }

  /**
    A credential without `uid` or `password` is 500 `SERVER_CONFIG_ERROR`
    before any call; stage 1 must return both `access_token` and `open_id`,
    stage 2 both `serverUrl` and `token`, else 401; an exception from any
    call is 500 `INTERNAL_SERVER_ERROR`.
   */
  lemma StageCodes(credential: map<string, string>, q: ShowQuery, up: Upstreams)
    ensures var r := RunShow(credential, q, up);
      && (!HasCredential(credential) <==> r == ShowResponse(500, Failure(ServerConfigError(q.server)), []))
      && (HasCredential(credential) ==>
            (up.garenaToken.Returns? && !TokenIssued(up.garenaToken) <==>
              r == ShowResponse(401, Failure(GarenaAuthFailed), [LoginCall(credential)])))
      && (HasCredential(credential) && TokenIssued(up.garenaToken) && up.majorLogin.Returns?
          && !SessionOpened(up.majorLogin) ==>
            r == ShowResponse(401, Failure(MajorLoginFailed), [LoginCall(credential), MajorLoginCall(up.garenaToken)]))
      && (r.body == Failure(InternalServerError) <==>
            HasCredential(credential)
            && (up.garenaToken.Raises?
                || (TokenIssued(up.garenaToken) && up.majorLogin.Raises?)
                || (TokenIssued(up.garenaToken) && SessionOpened(up.majorLogin) && up.fetch.Raises?)))
  {
  }

  /**
    Stage 2 is called only after stage 1 issued both tokens, and the fetch
    only after stage 2 opened a session, with the session's URL and token
    and the parsed parameters.
   */
  lemma StagesInOrder(credential: map<string, string>, q: ShowQuery, up: Upstreams)
    ensures var r := RunShow(credential, q, up);
      && |r.calls| <= 3
      && (|r.calls| >= 1 ==> r.calls[0] == LoginCall(credential))
      && (|r.calls| >= 2 <==> HasCredential(credential) && TokenIssued(up.garenaToken))
      && (|r.calls| >= 2 ==> r.calls[1] == MajorLoginCall(up.garenaToken))
      && (|r.calls| == 3 <==> HasCredential(credential) && TokenIssued(up.garenaToken) && SessionOpened(up.majorLogin))
      && (|r.calls| == 3 ==>
            var session := up.majorLogin.value.fields;
            r.calls[2] == PersonalShow(session["serverUrl"], session["token"], q.uid, q.needGalleryInfo, q.callSignSrc))
  {
  }

  /**
    Once the fetch is made, an empty result is 404 `PLAYER_DATA_NOT_FOUND`
    and a non-empty one is 200 carrying it.
   */
  lemma FetchOutcomes(credential: map<string, string>, q: ShowQuery, up: Upstreams)
    requires HasCredential(credential) && TokenIssued(up.garenaToken) && SessionOpened(up.majorLogin)
    requires up.fetch.Returns?
    ensures var r := RunShow(credential, q, up);
      && (!Truthy(up.fetch.value) ==> r.status == 404 && r.body == Failure(PlayerDataNotFound(q.uid)))
      && (Truthy(up.fetch.value) ==> r.status == 200 && r.body == Show(up.fetch.value))
  {
  }

  /** The not-found message ends with the uid in a form `int()` reads back. */
  lemma {:induction false} NotFoundMessageNamesUid(uid: int)
    ensures var prefix := "No player data found for UID: ";
      && NotFoundMessage(uid)[..|prefix|] == prefix
      && ParseInt(NotFoundMessage(uid)[|prefix|..]) == Some(uid)
  {
    var prefix := "No player data found for UID: ";
    assert NotFoundMessage(uid)[|prefix|..] == FormatInt(uid);
    ParseFormatRoundTrip(uid);
  }
}
