/**
  Properties that relate the three endpoints: what they share (the region
  check, the order of the login stages) and where they differ (how they
  read a uid, how they answer an empty result).
 */
module Endpoints {
  import opened Wrappers
  import opened PyText
  import opened Gateway
  import KeywordSearch
  import PlayerStats
  import PersonalShow

  /**
    The three endpoints normalise `server` the same way, and an unknown
    region is answered 400 with no call on each, whatever else the request
    holds: every check that precedes the region check also answers 400
    without a call.
   */
  lemma {:induction false} UnknownRegionEverywhere(args: Args, accounts: Registry, up: Upstreams)
    requires !Contains(accounts, Upper(GetOr(args, "server", "IND")))
    ensures var r := KeywordSearch.HandleSearch(args, accounts, up); r.status == 400 && r.calls == []
    ensures var r := PlayerStats.HandleStats(args, accounts, up); r.status == 400 && r.calls == []
    ensures var r := PersonalShow.HandleShow(args, accounts, up); r.status == 400 && r.calls == []
  {
    assert KeywordSearch.Region(args) == PlayerStats.Server(args) == PersonalShow.Server(args);
    assert !PlayerStats.StatsAccepted(args, accounts);
    assert !PersonalShow.ShowAccepted(args, accounts);
  }

  /**
    The two endpoints disagree on the uid "0": stats accepts it (it is all
    digits) and passes it on, while personal show answers 400
    `INVALID_UID_RANGE`.
   */
  lemma ZeroUid(args: Args, accounts: Registry, up: Upstreams)
    requires Get(args, "uid") == Some("0")
    ensures PlayerStats.UidAccepted(args)
    ensures PersonalShow.HandleShow(args, accounts, up).body == PersonalShow.Failure(PersonalShow.InvalidUidRange)
  {
    DigitStringValue("0");
  }

  /**
    A successful login followed by an empty result (a falsy value) is 404 on
    stats and on personal show, but 200 on search, which passes the empty
    result on.
   */
  lemma {:induction false} EmptyResult(args: Args, accounts: Registry, up: Upstreams)
    requires TokenIssued(up.garenaToken) && SessionOpened(up.majorLogin)
    requires up.fetch.Returns? && !Truthy(up.fetch.value)
    ensures KeywordSearch.KeywordAccepted(args) && Contains(accounts, KeywordSearch.Region(args))
            && HasCredential(Lookup(accounts, KeywordSearch.Region(args))) ==>
              KeywordSearch.HandleSearch(args, accounts, up).status == 200
    ensures PlayerStats.StatsAccepted(args, accounts) && HasCredential(Lookup(accounts, PlayerStats.Server(args))) ==>
              PlayerStats.HandleStats(args, accounts, up).status == 404
    ensures PersonalShow.ShowAccepted(args, accounts) && HasCredential(Lookup(accounts, PersonalShow.Server(args))) ==>
              PersonalShow.HandleShow(args, accounts, up).status == 404
  {
    if KeywordSearch.KeywordAccepted(args) && Contains(accounts, KeywordSearch.Region(args))
       && HasCredential(Lookup(accounts, KeywordSearch.Region(args))) {
      var q := KeywordSearch.ValidateSearch(args, accounts).value;
      KeywordSearch.SuccessExactly(Lookup(accounts, q.region), q.keyword, up);
    }
    if PlayerStats.StatsAccepted(args, accounts) && HasCredential(Lookup(accounts, PlayerStats.Server(args))) {
      var q := PlayerStats.ValidateStats(args, accounts).value;
      PlayerStats.FetchOutcomes(Lookup(accounts, q.server), q, up);
    }
    if PersonalShow.ShowAccepted(args, accounts) && HasCredential(Lookup(accounts, PersonalShow.Server(args))) {
      var q := PersonalShow.ValidateShow(args, accounts).value;
      PersonalShow.FetchOutcomes(Lookup(accounts, q.server), q, up);
    }
  }

  /**
    Stage 1 returning no `access_token` stops search after one call, with 401.
   */
  lemma {:induction false} Stage1StopsSearch(args: Args, accounts: Registry, up: Upstreams)
    requires up.garenaToken.Returns? && !Has(up.garenaToken.value, "access_token")
    ensures var r := KeywordSearch.HandleSearch(args, accounts, up);
      |r.calls| <= 1 && (|r.calls| == 1 ==> r.status == 401)
  {
    match KeywordSearch.ValidateSearch(args, accounts)
    case Err(_) =>
    case Ok(q) => KeywordSearch.StagesInOrder(Lookup(accounts, q.region), q.keyword, up);
  }

  /** The same for stats. */
  lemma {:induction false} Stage1StopsStats(args: Args, accounts: Registry, up: Upstreams)
    requires up.garenaToken.Returns? && !Has(up.garenaToken.value, "access_token")
    ensures var r := PlayerStats.HandleStats(args, accounts, up);
      |r.calls| <= 1 && (|r.calls| == 1 ==> r.status == 401)
  {
    match PlayerStats.ValidateStats(args, accounts)
    case Err(_) =>
    case Ok(q) => PlayerStats.StagesInOrder(Lookup(accounts, q.server), q, up);
  }

  /**
    The same for personal show, which also stops, with 401, on a stage-1
    reply without `open_id`.
   */
  lemma {:induction false} Stage1StopsShow(args: Args, accounts: Registry, up: Upstreams)
    requires up.garenaToken.Returns? && !TokenIssued(up.garenaToken)
    ensures var r := PersonalShow.HandleShow(args, accounts, up);
      |r.calls| <= 1 && (|r.calls| == 1 ==> r.status == 401)
  {
    match PersonalShow.ValidateShow(args, accounts)
    case Err(_) =>
    case Ok(q) => PersonalShow.StagesInOrder(Lookup(accounts, q.server), q, up);
  }
}
