/**
 * The controller node of nest2.py: token resolution, the PIN poll, discovery,
 * the request layer, the stream consumer, the watchdog and the profile
 * check, as one class whose fields the methods update.
 *
 * The network, the clock, the consumer thread's liveness and the local files
 * are inputs (`Env`, `Exchange`, event lists); what the controller hands to
 * the host (saved custom data, requests issued, node refreshes) is logged in
 * sequence fields.
 */
module Nest {
  import opened Common
  import opened Snapshots
  import opened Session
  import opened Requests
  import opened Discovery
  import opened Streaming

  /** The OAuth init data a cloud deployment receives from the host. */
  datatype OAuthInit = OAuthInit(clientId: Option<string>, clientSecret: Option<string>, worker: string)

  /** The answer to the PIN-for-token exchange: the request raised, or a reply and its `access_token` and `expires_in` keys. */
  datatype TokenReply = TokenRequestFailed | TokenAnswered(accessToken: Option<string>, expiresIn: Option<int>)

  /** The answer of the PIN relay the local deployment polls: the request raised, or a status and the reply's `pin` key. */
  datatype PinReply = PinRequestFailed | PinAnswered(status: int, pin: Option<string>)

  /**
   * Everything outside the controller that one entry point can observe: the
   * clock, the cache file, the OAuth init data, the host's `pin` parameter,
   * the token exchange's reply, the HMAC-derived state string, the state read
   * and its decoded body, and whether the consumer thread is alive.
   */
  datatype Env = Env(
    now: int,
    cache: Option<CacheFile>,
    oauth: OAuthInit,
    paramPin: Option<string>,
    tokenReply: TokenReply,
    hmacState: string,
    state: Exchange,
    stateBody: Snapshot,
    threadAlive: bool)

  /** PIN polls allowed before the controller gives up (about fifteen minutes of short polls). */
  const MaxCookieTries: int := 60

  /** Discovery with this token succeeds: it is truthy, the state read ends in 200, and the snapshot has structures. */
  predicate DiscoverSucceeds(token: Option<string>, env: Env)
  {
    Truthy(token) && Final(env.state) == Answered(200) && env.stateBody.structures.Some?
  }

  /** A PIN the relay handed over. */
  predicate PinObtained(p: PinReply)
  {
    p.PinAnswered? && p.status == 200 && p.pin.Some?
  }

  /**
   * The part of the controller that discovery and the watchdog write: the
   * connection, the last read, the request log, the discovery flag, the
   * current snapshot, the nodes, the update-definition flag and the consumer
   * bookkeeping.
   */
  datatype Mirror = Mirror(
    apiConn: Option<string>,
    apiData: Option<Snapshot>,
    requestLog: seq<Request>,
    discovery: bool,
    data: Option<Snapshot>,
    nodes: Nodes,
    updateNodes: bool,
    supervisor: Supervisor)

  /**
   * What one discovery with `token` makes of `m`: nothing without a truthy
   * token; otherwise the state read's GETs are logged, a failed read clears
   * the connection, and a read ending in 200 stores the snapshot (as the
   * current one too when there was none) and, when it lists structures,
   * registers the missing nodes and clears the update-definition flag.
   */
  function AfterDiscovery(m: Mirror, token: Option<string>, env: Env, addressOf: string -> string): (n: Mirror)
    ensures n.supervisor == m.supervisor
    ensures !Truthy(token) ==> n == m
    ensures Truthy(token) ==>
      n.requestLog == m.requestLog + [GetRequest(OpenHost(m.apiConn))]
        + (if Redirected(env.state) then [GetRequest(env.state.redirectHost)] else [])
    ensures Truthy(token) && Final(env.state) == Answered(200) ==>
      n.apiConn == Some(if Redirected(env.state) then env.state.redirectHost else OpenHost(m.apiConn))
      && n.apiData == Some(env.stateBody) && !n.discovery
      && n.data == (if m.data.None? then Some(env.stateBody) else m.data)
    ensures Truthy(token) && Final(env.state) != Answered(200) ==>
      n.apiConn.None? && n.apiData == m.apiData && n.discovery == m.discovery && n.data == m.data
    ensures DiscoverSucceeds(token, env) ==>
      n.nodes == Discovered(m.nodes, env.stateBody, m.updateNodes, addressOf) && !n.updateNodes
    ensures !DiscoverSucceeds(token, env) ==> n.nodes == m.nodes && n.updateNodes == m.updateNodes
  {
    if !Truthy(token) then m
    else
      var x := env.state;
      var log := m.requestLog + [GetRequest(OpenHost(m.apiConn))] + (if Redirected(x) then [GetRequest(x.redirectHost)] else []);
      if Final(x) != Answered(200) then m.(apiConn := None, requestLog := log)
      else
        var read := m.(apiConn := Some(if Redirected(x) then x.redirectHost else OpenHost(m.apiConn)),
                       apiData := Some(env.stateBody), requestLog := log, discovery := false,
                       data := if m.data.None? then Some(env.stateBody) else m.data);
        if env.stateBody.structures.None? then read
        else read.(nodes := Discovered(m.nodes, env.stateBody, m.updateNodes, addressOf), updateNodes := false)
  }

  class Controller {
    /** The deployment is the cloud one. */
    const cloud: bool
    /** The deterministic id-to-address digest. */
    const addressOf: string -> string
    /** The custom data the host handed over at start. */
    const customData: Option<CustomData>

    /** Every custom-data record saved to the host, oldest first. */
    var saved: seq<CustomData>
    var profileVersion: Option<string>
    var authToken: Option<string>
    /** The OAuth state string a PIN is polled for. */
    var cookie: Option<string>
    var cookieTries: int
    /** The host of the open API connection. */
    var apiConn: Option<string>
    /** The last snapshot a state read returned. */
    var apiData: Option<Snapshot>
    /** The current snapshot the nodes refresh from. */
    var data: Option<Snapshot>
    var discovery: bool
    var updateNodes: bool
    var rediscoveryNeeded: bool
    /** The controller's nodes, by address. */
    var nodes: Nodes
    var supervisor: Supervisor
    var streamLastUpdate: int
    /** The snapshots all nodes were refreshed from by the consumer, oldest first. */
    var refreshes: seq<Snapshot>
    /** Every request issued to the vendor API, oldest first. */
    var requestLog: seq<Request>

    /** The PIN poll counter stays within its cap. */
    predicate Valid()
      reads this
    {
      0 <= cookieTries <= MaxCookieTries
    }

    /** The state discovery and the watchdog write. */
    function Mirrored(): Mirror
      reads this
    {
      Mirror(apiConn, apiData, requestLog, discovery, data, nodes, updateNodes, supervisor)
    }

    /** The state the consumer writes. */
    function Ingested(): Ingest
      reads this
    {
      Ingest(authToken, data, streamLastUpdate, refreshes)
    }

    constructor (cloud: bool, addressOf: string -> string, customData: Option<CustomData>)
      ensures this.cloud == cloud && this.addressOf == addressOf && this.customData == customData
      ensures Valid() && cookieTries == 0 && cookie.None? && authToken.None?
      ensures apiConn.None? && apiData.None? && data.None? && !discovery && !updateNodes && !rediscoveryNeeded
      ensures nodes == map[] && supervisor == Supervisor(0, false) && streamLastUpdate == 0
      ensures saved == [] && refreshes == [] && requestLog == [] && profileVersion.None?
    {
      this.cloud := cloud;
      this.addressOf := addressOf;
      this.customData := customData;
      saved := [];
      profileVersion := None;
      authToken := None;
      cookie := None;
      cookieTries := 0;
      apiConn := None;
      apiData := None;
      data := None;
      discovery := false;
      updateNodes := false;
      rediscoveryNeeded := false;
      nodes := map[];
      supervisor := Supervisor(0, false);
      streamLastUpdate := 0;
      refreshes := [];
      requestLog := [];
    }

    /**
     * The profile check: with both a version file and custom data, the
     * version is read (line breaks removed), and the nodes are marked for a
     * definition update when the stored version is missing or differs; while
     * marked, the new version is saved.
     */
    method CheckProfile(versionFile: Option<string>)
      modifies this`profileVersion, this`updateNodes, this`saved
      ensures profileVersion ==
        (if versionFile.Some? && customData.Some? then Some(StripNewlines(versionFile.value)) else old(profileVersion))
      ensures updateNodes == ProfileFlag(versionFile, old(updateNodes))
      ensures saved == old(saved) + ProfileSaved(versionFile, old(updateNodes))
    {
      if versionFile.Some? && customData.Some? {
        var v := StripNewlines(versionFile.value);
        profileVersion := Some(v);
        if customData.value.profVer.Some? {
          if customData.value.profVer.value != v {
            updateNodes := true;
          }
        } else {
          updateNodes := true;
        }
        if updateNodes {
          saved := saved + [customData.value.(profVer := profileVersion)];
        }
      }
    }

    /** The record saved after a PIN exchange: the host's record with the new token, its expiry when one came, and the profile version. */
    static function Exchanged(custom: CustomData, token: string, expiresIn: Option<int>, now: int, version: Option<string>): CustomData
    {
      custom.(accessToken := Some(token),
              expires := if expiresIn.Some? then Some(now + expiresIn.value) else custom.expires,
              profVer := version)
    }

    /** The exchange has client credentials: always locally, and in the cloud only when the init data has both. */
    predicate HasCredentials(env: Env)
    {
      !cloud || (env.oauth.clientId.Some? && env.oauth.clientSecret.Some?)
    }

    /** The PIN an exchange uses: the host's `pin` parameter before the given one. */
    static function PinUsed(pin: Option<string>, env: Env): Option<string>
    {
      if env.paramPin.Some? then env.paramPin else pin
    }

    /**
     * The token that resolution grants: a usable saved one, or the one a PIN
     * exchange answered with when there are credentials, a PIN and custom
     * data to save it in; None when resolution grants nothing.
     */
    function Granted(pin: Option<string>, env: Env): (g: Option<string>)
      ensures ResolveToken(customData, env.cache, env.now).FromDatabase? ==> g == customData.value.accessToken
      ensures ResolveToken(customData, env.cache, env.now).FromCache? ==> g == env.cache.value.accessToken
      ensures ResolveToken(customData, env.cache, env.now).NeedPin? && g.Some? ==>
        HasCredentials(env) && PinUsed(pin, env).Some? && customData.Some? && env.tokenReply.TokenAnswered? && env.tokenReply.accessToken == g
      ensures g.Some? ==> !TokenRaises(pin, env) && !Prompts(pin, env)
    {
      var res := ResolveToken(customData, env.cache, env.now);
      if !res.NeedPin? then Some(res.token)
      else if HasCredentials(env) && PinUsed(pin, env).Some? && env.tokenReply.TokenAnswered? && customData.Some? then
        env.tokenReply.accessToken
      else None
    }

    /** Resolution raises: the exchange answered with a token but there is no custom data to copy (KeyError). */
    predicate TokenRaises(pin: Option<string>, env: Env)
    {
      ResolveToken(customData, env.cache, env.now).NeedPin? && HasCredentials(env) && PinUsed(pin, env).Some?
      && env.tokenReply.TokenAnswered? && env.tokenReply.accessToken.Some? && customData.None?
    }

    /** Resolution ends at the PIN prompt: no usable saved token, credentials, but no PIN. */
    predicate Prompts(pin: Option<string>, env: Env)
    {
      ResolveToken(customData, env.cache, env.now).NeedPin? && HasCredentials(env) && PinUsed(pin, env).None?
    }

    /** The records resolution saves to the host, with profile version `version`: the cached token written through, or the exchanged record. */
    function SavedBy(pin: Option<string>, env: Env, version: Option<string>): seq<CustomData>
    {
      var res := ResolveToken(customData, env.cache, env.now);
      var g := Granted(pin, env);
      if res.FromCache? then [CustomData(Some(res.token), Some(res.expires), version)]
      else if res.NeedPin? && g.Some? then [Exchanged(customData.value, g.value, env.tokenReply.expiresIn, env.now, version)]
      else []
    }

    /** The update-definition flag after the profile check, from `flag` before it. */
    function ProfileFlag(versionFile: Option<string>, flag: bool): bool
    {
      if versionFile.Some? && customData.Some? then flag || customData.value.profVer != Some(StripNewlines(versionFile.value))
      else flag
    }

    /** The record the profile check saves: the host's record with the new version, while the nodes are marked. */
    function ProfileSaved(versionFile: Option<string>, flag: bool): seq<CustomData>
    {
      if versionFile.Some? && customData.Some? && ProfileFlag(versionFile, flag) then
        [customData.value.(profVer := Some(StripNewlines(versionFile.value)))]
      else []
    }

    /**
     * Token resolution: a saved token from the host's record, else from the
     * cache file (then written through to the host with the profile
     * version), else a PIN exchange with the host's `pin` parameter or the
     * given PIN; with no PIN at all the controller sets the state string the
     * user is prompted with.
     */
    method GetToken(pin: Option<string>, env: Env) returns (r: Outcome)
      modifies this`authToken, this`cookie, this`saved
      ensures cookie == (if Prompts(pin, env) then Some(if cloud then env.oauth.worker else env.hmacState) else old(cookie))
      ensures r == (if TokenRaises(pin, env) then Raised else Returned(Granted(pin, env).Some?))
      ensures authToken == (if Granted(pin, env).Some? then Granted(pin, env) else old(authToken))
      ensures saved == old(saved) + SavedBy(pin, env, profileVersion)
    {
      var res := ResolveToken(customData, env.cache, env.now);
      match res
      case FromDatabase(token) =>
        authToken := Some(token);
        return Returned(true);
      case FromCache(token, expires) =>
        authToken := Some(token);
        saved := saved + [CustomData(Some(token), Some(expires), profileVersion)];
        return Returned(true);
      case NeedPin =>
        r := ExchangePin(pin, env);
    }

    /** The PIN-exchange tail of token resolution. */
    method ExchangePin(pin: Option<string>, env: Env) returns (r: Outcome)
      modifies this`authToken, this`cookie, this`saved
      ensures var p := if env.paramPin.Some? then env.paramPin else pin;
        (!HasCredentials(env) ==>
          r == Returned(false) && authToken == old(authToken) && cookie == old(cookie) && saved == old(saved))
        && (HasCredentials(env) && p.None? ==>
          r == Returned(false) && authToken == old(authToken) && saved == old(saved)
          && cookie == Some(if cloud then env.oauth.worker else env.hmacState))
        && (HasCredentials(env) && p.Some? ==>
          cookie == old(cookie)
          && (r == Returned(true) <==> env.tokenReply.TokenAnswered? && env.tokenReply.accessToken.Some? && customData.Some?)
          && (r == Raised <==> env.tokenReply.TokenAnswered? && env.tokenReply.accessToken.Some? && customData.None?)
          && (r == Returned(true) ==>
            authToken == env.tokenReply.accessToken
            && saved == old(saved) + [Exchanged(customData.value, env.tokenReply.accessToken.value, env.tokenReply.expiresIn, env.now, profileVersion)])
          && (r != Returned(true) ==> authToken == old(authToken) && saved == old(saved)))
    {
      if cloud {
        if env.oauth.clientId.None? || env.oauth.clientSecret.None? {
          return Returned(false);
        }
      }
      var authPin := pin;
      if env.paramPin.Some? {
        authPin := env.paramPin;
      }
      if authPin.None? {
        cookie := Some(if cloud then env.oauth.worker else env.hmacState);
        return Returned(false);
      }
      match env.tokenReply
      case TokenRequestFailed =>
        return Returned(false);
      case TokenAnswered(token, expiresIn) =>
        if token.None? {
          return Returned(false);
        }
        if customData.None? {
          return Raised;
        }
        var record := Exchanged(customData.value, token.value, expiresIn, env.now, profileVersion);
        authToken := token;
        saved := saved + [record];
        return Returned(true);
    }

    /**
     * The state read: refused without a truthy token; otherwise a GET on the
     * open connection (opened on the API host when there is none), following
     * one 307 to the host it names. A raised request or a final status other
     * than 200 closes and clears the connection.
     */
    method GetState(x: Exchange, body: Snapshot) returns (ok: bool)
      modifies this`apiConn, this`apiData, this`requestLog
      ensures !Truthy(authToken) ==>
        !ok && apiConn == old(apiConn) && apiData == old(apiData) && requestLog == old(requestLog)
      ensures Truthy(authToken) ==>
        requestLog == old(requestLog) + [GetRequest(OpenHost(old(apiConn)))] + (if Redirected(x) then [GetRequest(x.redirectHost)] else [])
      ensures ok <==> Truthy(authToken) && Final(x) == Answered(200)
      ensures ok ==> apiData == Some(body) && apiConn == Some(if Redirected(x) then x.redirectHost else OpenHost(old(apiConn)))
      ensures Truthy(authToken) && !ok ==> apiConn.None? && apiData == old(apiData)
    {
      if !Truthy(authToken) {
        return false;
      }
      var host := OpenHost(apiConn);
      apiConn := Some(host);
      requestLog := requestLog + [GetRequest(host)];
      var answer := x.first;
      if answer.ConnectionError? {
        apiConn := None;
        return false;
      }
      if answer.status == 307 {
        apiConn := Some(x.redirectHost);
        requestLog := requestLog + [GetRequest(x.redirectHost)];
        answer := x.second;
        if answer.ConnectionError? {
          apiConn := None;
          return false;
        }
      }
      if answer.status != 200 {
        apiConn := None;
        return false;
      }
      apiData := Some(body);
      return true;
    }

    /**
     * A change request: refused before any request without a truthy token or
     * with an empty payload; otherwise a PUT following one 307. Only a raised
     * request closes and clears the connection; a bad final status leaves it
     * open.
     */
    method SendChange(url: string, payload: Payload, x: Exchange) returns (ok: bool)
      modifies this`apiConn, this`requestLog
      ensures !Truthy(authToken) || |payload| == 0 ==>
        !ok && apiConn == old(apiConn) && requestLog == old(requestLog)
      ensures Truthy(authToken) && |payload| > 0 ==>
        requestLog == old(requestLog) + [PutRequest(OpenHost(old(apiConn)), url, payload)]
          + (if Redirected(x) then [PutRequest(x.redirectHost, url, payload)] else [])
        && apiConn == (if Final(x).ConnectionError? then None
                       else Some(if Redirected(x) then x.redirectHost else OpenHost(old(apiConn))))
      ensures ok <==> Truthy(authToken) && |payload| > 0 && Final(x) == Answered(200)
    {
      if !Truthy(authToken) {
        return false;
      }
      if |payload| < 1 {
        return false;
      }
      var host := OpenHost(apiConn);
      apiConn := Some(host);
      requestLog := requestLog + [PutRequest(host, url, payload)];
      var answer := x.first;
      if answer.ConnectionError? {
        apiConn := None;
        return false;
      }
      if answer.status == 307 {
        apiConn := Some(x.redirectHost);
        requestLog := requestLog + [PutRequest(x.redirectHost, url, payload)];
        answer := x.second;
        if answer.ConnectionError? {
          apiConn := None;
          return false;
        }
      }
      if answer.status != 200 {
        return false;
      }
      return true;
    }

    /** Add a node for every entry whose address is not yet taken, in order. */
    method AddMissing(es: seq<Entry>, cat: Category)
      modifies this`nodes
      ensures nodes == WithNew(old(nodes), es, cat, updateNodes, addressOf)
    {
      var i := 0;
      while i < |es|
        invariant 0 <= i <= |es|
        invariant nodes == WithNew(old(nodes), es[..i], cat, updateNodes, addressOf)
      {
        var e := es[i];
        var address := addressOf(e.id);
        if address !in nodes {
          nodes := nodes[address := Info(cat, e, updateNodes)];
        }
        assert es[..i + 1][..i] == es[..i];
        i := i + 1;
      }
      assert es[..|es|] == es;
    }

    /**
     * Discovery: without a token or a good state read nothing happens; the
     * first state read seeds the current snapshot; a snapshot without
     * structures fails after that; otherwise every unseen structure and device
     * gets a node and the update-definition flag is cleared.
     */
    method Discover(env: Env) returns (ok: bool)
      modifies this`apiConn, this`apiData, this`requestLog, this`discovery, this`data, this`nodes, this`updateNodes
      ensures ok <==> DiscoverSucceeds(authToken, env)
      ensures Mirrored() == AfterDiscovery(old(Mirrored()), authToken, env, addressOf)
    {
      if authToken.None? {
        return false;
      }
      var got := GetState(env.state, env.stateBody);
      if !got {
        return false;
      }
      discovery := true;
      if data.None? {
        data := apiData;
      }
      var snap := apiData.value;
      if snap.structures.None? {
        discovery := false;
        return false;
      }
      AddMissing(Listed(snap.structures), OfStructures);
      AddMissing(Listed(snap.thermostats), OfThermostats);
      AddMissing(Listed(snap.smokeCoAlarms), OfSmokeCoAlarms);
      AddMissing(Listed(snap.cameras), OfCameras);
      discovery := false;
      updateNodes := false;
      return true;
    }

    /** The watchdog check, acting on the choice of `Watchdog`. */
    method CheckStreaming(env: Env) returns (r: bool)
      modifies this`supervisor
      ensures var a := Watchdog(authToken.Some?, discovery, old(supervisor).Started(), env.threadAlive, env.now, streamLastUpdate);
        supervisor == Supervised(old(supervisor), a) && (r <==> Reported(a))
    {
      if authToken.None? || discovery {
        return false;
      }
      if supervisor.starts == 0 {
        supervisor := supervisor.(starts := supervisor.starts + 1);
      } else {
        if env.threadAlive {
          if env.now - streamLastUpdate > StaleAfter {
            supervisor := supervisor.(restartRequested := true);
            return false;
          }
          return true;
        } else {
          supervisor := supervisor.(starts := supervisor.starts + 1);
        }
      }
      return true;
    }

    /**
     * The consumer thread's body: when the stream request went through, each
     * event is applied in turn until one ends the loop or the stream ends.
     */
    method StreamingProc(connected: bool, events: seq<Event>)
      modifies this`authToken, this`data, this`streamLastUpdate, this`refreshes
      ensures !connected ==> Ingested() == old(Ingested())
      ensures connected ==> Ingested() == Run(old(Ingested()), events)
    {
      if !connected {
        return;
      }
      var i := 0;
      while i < |events|
        invariant 0 <= i <= |events|
        invariant Run(old(Ingested()), events) == Run(Ingested(), events[i..])
      {
        var e := events[i];
        assert events[i..][0] == e && events[i..][1..] == events[i + 1..];
        streamLastUpdate := e.at;
        match e.kind {
          case Open =>
          case Put(body) =>
            data := Some(body);
            refreshes := refreshes + [body];
          case KeepAlive =>
          case AuthRevoked =>
            authToken := None;
            return;
          case Error =>
            return;
          case Cancel =>
            return;
          case Unrecognised(_) =>
            return;
        }
        i := i + 1;
      }
    }

    /**
     * The short poll: idle with a token, without a state string, or in the
     * cloud; otherwise one more PIN poll while fewer than 60 were made (a
     * PIN obtained clears the state string and starts token resolution, then
     * discovery and the watchdog), and once 60 were made the state string is
     * dropped so that polling stops.
     */
    method ShortPoll(relay: PinReply, env: Env) returns (r: Outcome)
      modifies this`cookieTries, this`authToken, this`cookie, this`saved
      modifies this`apiConn, this`apiData, this`requestLog, this`discovery, this`data, this`nodes, this`updateNodes
      modifies this`supervisor
      ensures old(Valid()) ==> Valid()
      ensures old(authToken).Some? || old(cookie).None? || cloud ==>
        r == Returned(true) && cookieTries == old(cookieTries) && cookie == old(cookie)
        && authToken == old(authToken) && saved == old(saved) && Mirrored() == old(Mirrored())
      ensures !(old(authToken).Some? || old(cookie).None? || cloud) ==>
        cookieTries == (if old(cookieTries) < MaxCookieTries then old(cookieTries) + 1 else old(cookieTries))
      ensures !(old(authToken).Some? || old(cookie).None? || cloud) && old(cookieTries) >= MaxCookieTries ==>
        r == Returned(true) && cookie.None? && authToken == old(authToken) && saved == old(saved)
        && Mirrored() == old(Mirrored())
      ensures !(old(authToken).Some? || old(cookie).None? || cloud) && old(cookieTries) < MaxCookieTries ==>
        (PinObtained(relay) ==>
          var g := Granted(relay.pin, env);
          cookie.None?
          && r == (if TokenRaises(relay.pin, env) then Raised else Returned(true))
          && authToken == g && saved == old(saved) + SavedBy(relay.pin, env, profileVersion)
          && (g.Some? ==> Mirrored() == AfterDiscovery(old(Mirrored()), g, env, addressOf).(supervisor := supervisor))
          && (g.Some? ==> supervisor == Supervised(old(supervisor),
                Watchdog(true, discovery, old(supervisor).Started(), env.threadAlive, env.now, streamLastUpdate)))
          && (g.None? ==> Mirrored() == old(Mirrored())))
        && (!PinObtained(relay) ==>
          r == Returned(relay.PinAnswered?) && cookie == old(cookie) && authToken == old(authToken)
          && saved == old(saved) && Mirrored() == old(Mirrored()))
    {
      r := Returned(true);
      if authToken.None? && cookie.Some? && !cloud {
        if cookieTries < MaxCookieTries {
          cookieTries := cookieTries + 1;
          if relay.PinRequestFailed? {
            r := Returned(false);
          } else if PinObtained(relay) {
            cookie := None;
            var got := GetToken(relay.pin, env);
            if got == Returned(true) {
              var _ := Discover(env);
              var _ := CheckStreaming(env);
            } else if got.Raised? {
              r := Raised;
            }
          }
        } else {
          cookie := None;
        }
      }
    }

    /**
     * The long poll: a pending rediscovery is retried first and, while it
     * fails, the poll stops there; then the watchdog runs.
     */
    method LongPoll(env: Env) returns (r: bool)
      modifies this`rediscoveryNeeded, this`supervisor
      modifies this`apiConn, this`apiData, this`requestLog, this`discovery, this`data, this`nodes, this`updateNodes
      ensures rediscoveryNeeded == (old(rediscoveryNeeded) && !DiscoverSucceeds(authToken, env))
      ensures r <==> !rediscoveryNeeded
      ensures Mirrored() ==
        (if old(rediscoveryNeeded) then AfterDiscovery(old(Mirrored()), authToken, env, addressOf) else old(Mirrored()))
          .(supervisor := supervisor)
      ensures !r ==> supervisor == old(supervisor)
      ensures r ==> supervisor == Supervised(old(supervisor),
        Watchdog(authToken.Some?, discovery, old(supervisor).Started(), env.threadAlive, env.now, streamLastUpdate))
    {
      if rediscoveryNeeded {
        var ok := Discover(env);
        if ok {
          rediscoveryNeeded := false;
        } else {
          return false;
        }
      }
      var _ := CheckStreaming(env);
      return true;
    }

    /**
     * The controller's start: the profile check, token resolution and, with a
     * token, discovery followed by the watchdog; a failed discovery leaves a
     * rediscovery pending for the long poll.
     */
    method Start(versionFile: Option<string>, env: Env) returns (r: Outcome)
      modifies this`profileVersion, this`updateNodes, this`saved, this`authToken, this`cookie
      modifies this`apiConn, this`apiData, this`requestLog, this`discovery, this`data, this`nodes
      modifies this`rediscoveryNeeded, this`supervisor
      ensures var g := Granted(None, env);
        (r == Raised <==> TokenRaises(None, env))
        && (r == Returned(true) <==> g.Some? && DiscoverSucceeds(g, env))
        && authToken == (if g.Some? then g else old(authToken))
        && rediscoveryNeeded == (old(rediscoveryNeeded) || (g.Some? && !DiscoverSucceeds(g, env)))
      ensures updateNodes == (if r == Returned(true) then false else ProfileFlag(versionFile, old(updateNodes)))
      ensures profileVersion ==
        (if versionFile.Some? && customData.Some? then Some(StripNewlines(versionFile.value)) else old(profileVersion))
      ensures cookie == (if Prompts(None, env) then Some(if cloud then env.oauth.worker else env.hmacState) else old(cookie))
      ensures saved == old(saved) + ProfileSaved(versionFile, old(updateNodes)) + SavedBy(None, env, profileVersion)
      ensures var g := Granted(None, env);
        var m := old(Mirrored()).(updateNodes := ProfileFlag(versionFile, old(updateNodes)));
        Mirrored() == (if g.Some? then AfterDiscovery(m, g, env, addressOf) else m).(supervisor := supervisor)
      ensures r == Returned(true) ==> supervisor == Supervised(old(supervisor),
        Watchdog(true, false, old(supervisor).Started(), env.threadAlive, env.now, streamLastUpdate))
      ensures r != Returned(true) ==> supervisor == old(supervisor)
    {
      CheckProfile(versionFile);
      r := Connect(env);
    }

    /**
     * The start after the profile check: token resolution without a PIN and,
     * when it grants a token, discovery followed by the watchdog.
     */
    method Connect(env: Env) returns (r: Outcome)
      modifies this`saved, this`authToken, this`cookie
      modifies this`apiConn, this`apiData, this`requestLog, this`discovery, this`data, this`nodes, this`updateNodes
      modifies this`rediscoveryNeeded, this`supervisor
      ensures var g := Granted(None, env);
        (r == Raised <==> TokenRaises(None, env))
        && (r == Returned(true) <==> g.Some? && DiscoverSucceeds(g, env))
        && authToken == (if g.Some? then g else old(authToken))
        && rediscoveryNeeded == (old(rediscoveryNeeded) || (g.Some? && !DiscoverSucceeds(g, env)))
      ensures cookie == (if Prompts(None, env) then Some(if cloud then env.oauth.worker else env.hmacState) else old(cookie))
      ensures saved == old(saved) + SavedBy(None, env, profileVersion)
      ensures var g := Granted(None, env);
        Mirrored() == (if g.Some? then AfterDiscovery(old(Mirrored()), g, env, addressOf) else old(Mirrored())).(supervisor := supervisor)
      ensures r == Returned(true) ==> supervisor == Supervised(old(supervisor),
        Watchdog(true, false, old(supervisor).Started(), env.threadAlive, env.now, streamLastUpdate))
      ensures r != Returned(true) ==> supervisor == old(supervisor)
    {
      r := GetToken(None, env);
      if r == Returned(true) {
        var ok := DiscoverAndWatch(env);
        r := Returned(ok);
      }
    }

    /** The tail of the start: discovery and, when it succeeds, the watchdog; a failed discovery leaves a rediscovery pending. */
    method DiscoverAndWatch(env: Env) returns (ok: bool)
      modifies this`apiConn, this`apiData, this`requestLog, this`discovery, this`data, this`nodes, this`updateNodes
      modifies this`rediscoveryNeeded, this`supervisor
      ensures ok <==> DiscoverSucceeds(authToken, env)
      ensures rediscoveryNeeded == (old(rediscoveryNeeded) || !ok)
      ensures Mirrored() == AfterDiscovery(old(Mirrored()), authToken, env, addressOf).(supervisor := supervisor)
      ensures ok ==> supervisor == Supervised(old(supervisor),
        Watchdog(true, false, old(supervisor).Started(), env.threadAlive, env.now, streamLastUpdate))
      ensures !ok ==> supervisor == old(supervisor)
    {
      ok := Discover(env);
      if ok {
        var _ := CheckStreaming(env);
        return;
      }
      rediscoveryNeeded := true;
    }
  }
}
