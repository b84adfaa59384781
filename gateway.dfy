/**
  What the three handlers share: the query string, the region registry
  (`accounts`), the values the collaborators return or the exceptions they
  raise, and the trace of collaborator calls a request makes.
 */
module Gateway {
  import opened Wrappers

  /** `request.args`: the query parameters by name. */
  type Args = map<string, string>

  /** `request.args.get(name)`: `None` when the parameter is absent. */
  function Get(args: Args, name: string): (r: Option<string>)
    ensures r.Some? <==> name in args
    ensures r.Some? ==> r.value == args[name]
  {
    if name in args then Some(args[name]) else None
  }

  /** `request.args.get(name, default)`. */
  function GetOr(args: Args, name: string, default: string): (r: string)
    ensures name in args ==> r == args[name]
    ensures name !in args ==> r == default
  {
    if name in args then args[name] else default
  }

  /** Python truthiness of a parameter: `not x` holds for an absent or empty one. */
  predicate Present(p: Option<string>) {
    p.Some? && p.value != ""
  }

  /** One entry of `accounts`: a region code and its credential dict. */
  datatype Entry = Entry(region: string, credential: map<string, string>)

  /**
    `accounts`, loaded once at start-up. A Python dict keeps its insertion
    order, which `list(accounts.keys())` exposes, so the registry is a
    sequence of entries.
   */
  type Registry = seq<Entry>

  /** `list(accounts.keys())`. */
  function Regions(accounts: Registry): (keys: seq<string>)
    ensures |keys| == |accounts|
    ensures forall i :: 0 <= i < |accounts| ==> keys[i] == accounts[i].region
  {
    if accounts == [] then [] else [accounts[0].region] + Regions(accounts[1..])
  }

  /** `region in accounts`. */
  predicate Contains(accounts: Registry, region: string) {
    region in Regions(accounts)
  }

  /** A Python dict holds each key once: no two entries share a region. */
  predicate DistinctRegions(accounts: Registry) {
    forall i, j :: 0 <= i < j < |accounts| ==> accounts[i].region != accounts[j].region
  }

  /**
    `accounts[region]`: the credential stored under a known region. The
    search stops at the first entry with that region, which for a registry
    with distinct regions is the only one (see `LookupDistinct`).
   */
  function Lookup(accounts: Registry, region: string): (c: map<string, string>)
    requires Contains(accounts, region)
    ensures exists i :: 0 <= i < |accounts| && accounts[i] == Entry(region, c)
  {
    if accounts[0].region == region then accounts[0].credential
    else
      assert region in Regions(accounts[1..]) by {
        var keys := Regions(accounts);
        var k :| 0 <= k < |keys| && keys[k] == region;
        assert k > 0 && Regions(accounts[1..])[k - 1] == region;
      }
      Lookup(accounts[1..], region)
  }

  /** The Python exception classes the handlers tell apart (each with its subclasses). */
  datatype Exc = KeyError | ValueError | TypeError | ConnectionError | OtherException

  /**
    A collaborator's return value: `None`, or a dict whose string fields are
    modelled (tokens, URLs, player data).
   */
  datatype Value = Null | Dict(fields: map<string, string>)

  /** Python truthiness: `None` and the empty dict are falsy. */
  predicate Truthy(v: Value) {
    v.Dict? && v.fields != map[]
  }

  /** `key in v`, for a dict `v`. */
  predicate Has(v: Value, key: string) {
    v.Dict? && key in v.fields
  }

  /** The outcome of one collaborator call. */
  datatype Reply = Raises(exc: Exc) | Returns(value: Value)

  /**
    What each of the three collaborator calls would produce if it were made:
    `get_garena_token`, `get_major_login`, and the endpoint's data call.
   */
  datatype Upstreams = Upstreams(garenaToken: Reply, majorLogin: Reply, fetch: Reply)

  /** One collaborator call, with the arguments the handler passes. */
  datatype Call =
    | GarenaToken(accountUid: string, password: string)
    | MajorLogin(accessToken: string, openId: string)
    | SearchAccounts(serverUrl: string, token: string, keyword: string)
    | PlayerStats(token: string, serverUrl: string, gamemode: string, playerId: string, matchmode: string)
    | PersonalShow(serverUrl: string, token: string, playerUid: int, needGalleryInfo: bool, callSignSrc: int)

  /** The stored credential has both fields the account-token call is made with. */
  predicate HasCredential(credential: map<string, string>) {
    "uid" in credential && "password" in credential
  }

  /** Stage 1 returned a truthy dict holding both `access_token` and `open_id`. */
  predicate TokenIssued(reply: Reply) {
    reply.Returns? && Truthy(reply.value) && Has(reply.value, "access_token") && Has(reply.value, "open_id")
  }

  /** Stage 2 returned a truthy dict holding both `token` and `serverUrl`. */
  predicate SessionOpened(reply: Reply) {
    reply.Returns? && Truthy(reply.value) && Has(reply.value, "token") && Has(reply.value, "serverUrl")
  }

  /** The account-token call every pipeline starts with, made with the region's stored credential. */
  function LoginCall(credential: map<string, string>): Call
    requires HasCredential(credential)
  {
    GarenaToken(credential["uid"], credential["password"])
  }

  /** The session exchange, made with stage 1's access token and open id. */
  function MajorLoginCall(reply: Reply): Call
    requires TokenIssued(reply)
  {
    MajorLogin(reply.value.fields["access_token"], reply.value.fields["open_id"])
  }

  /**
    In a registry with distinct regions, `accounts[region]` for the region of
    any entry is that entry's credential.
   */
  lemma {:induction false} LookupDistinct(accounts: Registry, i: nat)
    requires DistinctRegions(accounts)
    requires i < |accounts|
    ensures Contains(accounts, accounts[i].region)
    ensures Lookup(accounts, accounts[i].region) == accounts[i].credential
  {
    var region := accounts[i].region;
    assert Regions(accounts)[i] == region;
    if i > 0 {
      var tail := accounts[1..];
      assert accounts[0].region != region;
      assert tail[i - 1] == accounts[i];
      assert DistinctRegions(tail) by {
        forall k, l | 0 <= k < l < |tail| ensures tail[k].region != tail[l].region {
          assert tail[k] == accounts[k + 1] && tail[l] == accounts[l + 1];
        }
      }
      LookupDistinct(tail, i - 1);
    }
  }
}
