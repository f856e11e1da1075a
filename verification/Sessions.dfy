/** The multi-cluster auth plugin: one session per instance hostname. */
module Sessions {
  import opened Prelude
  import opened Ordering

  /** Nanoseconds; clock readings may come in any order. */
  type Time = int

  const HANDLER_NAME := "multicluster"
  const HOUR: Time := 3_600_000_000_000

  datatype Claims = Claims(subject: string, name: string, issuedAt: Time)

  datatype Session = Session(claims: Claims, token: string, expiresAt: Time, callbackPort: int)

  type Store = map<string, Session>

  /** Claims and expiry of a login. */
  datatype LoginResponse = LoginResponse(claims: Claims, expiresAt: Time)

  datatype Status = Status(
    authenticated: bool,
    reason: string,
    claims: Option<Claims>,
    expiresAt: Option<Time>,
    hostname: string)

  datatype Token = Token(accessToken: string, tokenType: string, expiresAt: Time)

  datatype CachedToken = CachedToken(
    handler: string,
    hostname: string,
    tokenKind: string,
    tokenType: string,
    isExpired: bool)

  /** The error of a call that names another handler, or of a token for an instance without a session. */
  datatype Error = UnknownHandler(name: string) | NotLoggedIn(hostname: string)

  datatype Result<T> = Ok(value: T) | Err(error: Error)

  function InstanceLabel(host: string): string {
    if host == "" then "default" else host
  }

  function TokenFor(host: string): string {
    "token-for-" + InstanceLabel(host)
  }

  function NewSession(host: string, now: Time, port: int): Session {
    Session(Claims("user@" + InstanceLabel(host), "Cluster User", now), TokenFor(host), now + HOUR, port)
  }

  /** A status gives the session's claims and expiry, or neither and the reason. */
  predicate Describes(status: Status, host: string, s: Store) {
    && status.hostname == host
    && (status.authenticated <==> host in s)
    && (host in s ==>
          && status.reason == ""
          && status.claims == Some(s[host].claims) && status.expiresAt == Some(s[host].expiresAt))
    && (host !in s ==>
          && status.reason == "no session for instance" && status.claims.None? && status.expiresAt.None?)
  }

  class MultiClusterAuthPlugin {
    var sessions: Store

    constructor ()
      ensures sessions == map[]
    {
      sessions := map[];
    }

    method Login(name: string, host: string, port: int, now: Time) returns (r: Result<LoginResponse>)
      modifies this
      ensures sessions == Applied(old(sessions), LoginEvent(name, host, port, now))
      ensures r == if name == HANDLER_NAME
                   then Ok(LoginResponse(NewSession(host, now, port).claims, now + HOUR))
                   else Err(UnknownHandler(name))
    {
      if name != HANDLER_NAME {
        return Err(UnknownHandler(name));
      }
      var claims := Claims("user@" + InstanceLabel(host), "Cluster User", now);
      var expiresAt := now + HOUR;
      sessions := sessions[host := Session(claims, "token-for-" + InstanceLabel(host), expiresAt, port)];
      return Ok(LoginResponse(claims, expiresAt));
    }

    method Logout(name: string, host: string) returns (r: Result<()>)
      modifies this
      ensures sessions == Applied(old(sessions), LogoutEvent(name, host))
      ensures r == if name == HANDLER_NAME then Ok(()) else Err(UnknownHandler(name))
    {
      if name != HANDLER_NAME {
        return Err(UnknownHandler(name));
      }
      if host == "" {
        sessions := map[];
        return Ok(());
      }
      sessions := sessions - {host};
      return Ok(());
    }

    /** Deletes while it ranges over the map, in any order. */
    method PurgeExpiredTokens(name: string, now: Time) returns (r: Result<int>)
      modifies this
      ensures sessions == Applied(old(sessions), PurgeEvent(name, now))
      ensures r == if name == HANDLER_NAME then Ok(|old(sessions)| - |sessions|) else Err(UnknownHandler(name))
    {
      if name != HANDLER_NAME {
        return Err(UnknownHandler(name));
      }
      var purged := 0;
      var pending := sessions.Keys;
      while pending != {}
        invariant pending <= sessions.Keys <= old(sessions).Keys
        invariant forall h :: h in sessions ==> sessions[h] == old(sessions)[h]
        invariant forall h :: h in old(sessions) && h !in pending ==>
                    (h in sessions <==> now <= old(sessions)[h].expiresAt)
        invariant purged == |old(sessions)| - |sessions|
        decreases pending
      {
        var host :| host in pending;
        pending := pending - {host};
        if now > sessions[host].expiresAt {
          SizeWithout(sessions, host);
          sessions := sessions - {host};
          purged := purged + 1;
        }
      }
      return Ok(purged);
    }

    method GetStatus(name: string, host: string) returns (r: Result<Status>)
      ensures name != HANDLER_NAME ==> r == Err(UnknownHandler(name))
      ensures name == HANDLER_NAME ==> r.Ok? && Describes(r.value, host, sessions)
    {
      if name != HANDLER_NAME {
        return Err(UnknownHandler(name));
      }
      if host !in sessions {
        return Ok(Status(false, "no session for instance", None, None, host));
      }
      var s := sessions[host];
      return Ok(Status(true, "", Some(s.claims), Some(s.expiresAt), host));
    }

    method GetToken(name: string, host: string) returns (r: Result<Token>)
      ensures r == if name != HANDLER_NAME then Err(UnknownHandler(name))
                   else if host !in sessions then Err(NotLoggedIn(host))
                   else Ok(Token(sessions[host].token, "Bearer", sessions[host].expiresAt))
    {
      if name != HANDLER_NAME {
        return Err(UnknownHandler(name));
      }
      if host !in sessions {
        return Err(NotLoggedIn(host));
      }
      var s := sessions[host];
      return Ok(Token(s.token, "Bearer", s.expiresAt));
    }

    /** clock gives the reading for the i-th listed entry. */
    method ListCachedTokens(name: string, clock: nat -> Time) returns (r: Result<seq<CachedToken>>)
      ensures name != HANDLER_NAME ==> r == Err(UnknownHandler(name))
      ensures name == HANDLER_NAME ==> r.Ok? && Lists(r.value, sessions, Listing(sessions.Keys), clock)
    {
      if name != HANDLER_NAME {
        return Err(UnknownHandler(name));
      }
      var hosts := SortedKeys(sessions);
      assert forall i :: 0 <= i < |hosts| ==> hosts[i] in Elems(hosts);
      var tokens := TokensOf(sessions, hosts, clock);
      return Ok(tokens);
    }
  }

  /** One entry per host, in the order of hosts, each with its own expiry check. */
  ghost predicate Lists(tokens: seq<CachedToken>, s: Store, hosts: seq<string>, clock: nat -> Time) {
    && |tokens| == |hosts|
    && forall i :: 0 <= i < |hosts| ==>
         hosts[i] in s &&
         tokens[i] == CachedToken(HANDLER_NAME, hosts[i], "access", "Bearer", clock(i) > s[hosts[i]].expiresAt)
  }

  method TokensOf(s: Store, hosts: seq<string>, clock: nat -> Time) returns (tokens: seq<CachedToken>)
    requires forall i :: 0 <= i < |hosts| ==> hosts[i] in s
    ensures Lists(tokens, s, hosts, clock)
  {
    tokens := [];
    for i := 0 to |hosts|
      invariant |tokens| == i
      invariant forall j :: 0 <= j < i ==>
                  tokens[j] == CachedToken(HANDLER_NAME, hosts[j], "access", "Bearer", clock(j) > s[hosts[j]].expiresAt)
    {
      tokens := tokens + [CachedToken(HANDLER_NAME, hosts[i], "access", "Bearer", clock(i) > s[hosts[i]].expiresAt)];
    }
  }

  /** Collects the keys in any order, then sorts them. */
  method SortedKeys(s: Store) returns (hosts: seq<string>)
    ensures hosts == Listing(s.Keys)
  {
    hosts := [];
    var pending := s.Keys;
    while pending != {}
      invariant pending <= s.Keys
      invariant Elems(hosts) == s.Keys - pending
      invariant NoDuplicates(hosts)
      decreases pending
    {
      var host :| host in pending;
      assert host !in Elems(hosts);
      ElemsAppend(hosts, host);
      hosts := hosts + [host];
      pending := pending - {host};
    }
    assert Elems(hosts) == s.Keys;
    SortStringsIsListing(hosts);
    hosts := SortStrings(hosts);
  }

  lemma SizeWithout(m: Store, host: string)
    requires host in m
    ensures |m - {host}| == |m| - 1
  {
    assert (m - {host}).Keys == m.Keys - {host};
    assert |m.Keys - {host}| == |m.Keys| - 1;
  }

  // ---- Histories ----

  /** The calls that may change the store. */
  datatype Event =
    | LoginEvent(name: string, host: string, port: int, now: Time)
    | LogoutEvent(name: string, host: string)
    | PurgeEvent(name: string, now: Time)

  function Applied(s: Store, e: Event): Store {
    if e.name != HANDLER_NAME then s
    else
      match e
      case LoginEvent(_, host, port, now) => s[host := NewSession(host, now, port)]
      case LogoutEvent(_, host) => if host == "" then map[] else s - {host}
      case PurgeEvent(_, now) => map h | h in s && now <= s[h].expiresAt :: s[h]
  }

  function Replay(h: seq<Event>): Store {
    if h == [] then map[] else Applied(Replay(h[..|h| - 1]), h[|h| - 1])
  }

  predicate LogsIn(e: Event, host: string) {
    e.LoginEvent? && e.name == HANDLER_NAME && e.host == host
  }

  /** Whether e ends a session of host that expires at the given time. */
  predicate Ends(e: Event, host: string, expiresAt: Time) {
    e.name == HANDLER_NAME &&
    match e
    case LoginEvent(_, h, _, _) => h == host
    case LogoutEvent(_, h) => h == host || h == ""
    case PurgeEvent(_, now) => now > expiresAt
  }

  /** The i-th call is the login that gave host the session it still has. */
  predicate Grants(h: seq<Event>, i: nat, host: string) {
    && i < |h| && LogsIn(h[i], host)
    && forall j :: i < j < |h| ==> !Ends(h[j], host, h[i].now + HOUR)
  }

  lemma {:induction false} GrantedSession(h: seq<Event>, i: nat, host: string)
    requires Grants(h, i, host)
    ensures host in Replay(h) && Replay(h)[host] == NewSession(host, h[i].now, h[i].port)
  {
    if i < |h| - 1 {
      GrantedSession(h[..|h| - 1], i, host);
      assert !Ends(h[|h| - 1], host, h[i].now + HOUR);
    }
  }

  lemma {:induction false} SessionGranted(h: seq<Event>, host: string) returns (i: nat)
    requires host in Replay(h)
    ensures Grants(h, i, host)
  {
    var n := |h| - 1;
    if LogsIn(h[n], host) {
      i := n;
    } else {
      i := SessionGranted(h[..n], host);
      GrantedSession(h[..n], i, host);
      assert !Ends(h[n], host, h[i].now + HOUR);
    }
  }

  /** The session says when its login was, expires an hour later, and names its instance. */
  predicate IssuedBy(s: Session, login: Event) {
    && login.LoginEvent?
    && s.claims.issuedAt == login.now && s.expiresAt == login.now + 3_600_000_000_000
    && s.callbackPort == login.port
    && (login.host != "" ==> s.claims.subject == "user@" + login.host && s.token == "token-for-" + login.host)
    && (login.host == "" ==> s.claims.subject == "user@default" && s.token == "token-for-default")
    && s.claims.name == "Cluster User"
  }

  /**
   * A host has a session exactly when its latest login is not followed by a logout of that host,
   * a logout of all hosts, or a purge that reads the clock strictly after the login's expiry.
   */
  lemma LiveIffGranted(h: seq<Event>, host: string)
    ensures host in Replay(h) <==> exists i: nat :: Grants(h, i, host)
    ensures forall i: nat :: Grants(h, i, host) ==>
              Replay(h)[host] == NewSession(host, h[i].now, h[i].port) && IssuedBy(Replay(h)[host], h[i])
  {
    if host in Replay(h) {
      var i := SessionGranted(h, host);
    }
    forall i: nat | Grants(h, i, host)
      ensures host in Replay(h) && Replay(h)[host] == NewSession(host, h[i].now, h[i].port)
    {
      GrantedSession(h, i, host);
    }
  }

  /** Serves a history on a new plugin. */
  method Serve(h: seq<Event>) returns (p: MultiClusterAuthPlugin)
    ensures fresh(p) && p.sessions == Replay(h)
  {
    p := new MultiClusterAuthPlugin();
    for i := 0 to |h|
      invariant fresh(p) && p.sessions == Replay(h[..i])
    {
      assert h[..i + 1][..i] == h[..i];
      match h[i]
      case LoginEvent(name, host, port, now) =>
        var r := p.Login(name, host, port, now);
      case LogoutEvent(name, host) =>
        var r := p.Logout(name, host);
      case PurgeEvent(name, now) =>
        var r := p.PurgeExpiredTokens(name, now);
    }
    assert h[..|h|] == h;
  }

  /** Every entry for the host has the fixed kinds, and its own reading of the clock against the expiry. */
  predicate ListedAs(tokens: seq<CachedToken>, host: string, expiresAt: Time, clock: nat -> Time) {
    forall j :: 0 <= j < |tokens| && tokens[j].hostname == host ==>
      tokens[j] == CachedToken("multicluster", host, "access", "Bearer", clock(j) > expiresAt)
  }

  /** After any history, the three queries agree with it on whether a host is logged in. */
  method QueriesAgree(h: seq<Event>, host: string, clock: nat -> Time)
    returns (token: Result<Token>, status: Result<Status>, listed: Result<seq<CachedToken>>)
    ensures token.Ok? <==> exists i: nat :: Grants(h, i, host)
    ensures forall i: nat :: Grants(h, i, host) ==>
              && token == Ok(Token(TokenFor(host), "Bearer", h[i].now + HOUR))
              && status == Ok(Status(true, "", Some(NewSession(host, h[i].now, 0).claims), Some(h[i].now + HOUR), host))
    ensures status.Ok? && (status.value.authenticated <==> token.Ok?)
    ensures listed.Ok? && (token.Ok? <==> exists i :: 0 <= i < |listed.value| && listed.value[i].hostname == host)
    ensures listed.Ok? && forall i: nat :: Grants(h, i, host) ==> ListedAs(listed.value, host, h[i].now + HOUR, clock)
    ensures listed.Ok? && forall i, j :: 0 <= i < j < |listed.value| ==>
        Less(listed.value[i].hostname, listed.value[j].hostname)
  {
    var p := Serve(h);
    token := p.GetToken(HANDLER_NAME, host);
    status := p.GetStatus(HANDLER_NAME, host);
    listed := p.ListCachedTokens(HANDLER_NAME, clock);
    LiveIffGranted(h, host);
    ListsHost(listed.value, p.sessions, host, clock);
  }

  lemma ListsHost(tokens: seq<CachedToken>, s: Store, host: string, clock: nat -> Time)
    requires Lists(tokens, s, Listing(s.Keys), clock)
    ensures host in s <==> exists i :: 0 <= i < |tokens| && tokens[i].hostname == host
    ensures host in s ==> ListedAs(tokens, host, s[host].expiresAt, clock)
    ensures forall i, j :: 0 <= i < j < |tokens| ==> Less(tokens[i].hostname, tokens[j].hostname)
  {
    var hosts := Listing(s.Keys);
    assert host in s <==> host in Elems(hosts);
    if host in s {
      var i :| 0 <= i < |hosts| && hosts[i] == host;
      assert tokens[i].hostname == host;
    }
  }

  function OwnEvents(h: seq<Event>): seq<Event> {
    if h == [] then []
    else OwnEvents(h[..|h| - 1]) + if h[|h| - 1].name == HANDLER_NAME then [h[|h| - 1]] else []
  }

  /** Calls that name another handler leave no trace in a history. */
  lemma {:induction false} OtherHandlersIgnored(h: seq<Event>)
    ensures Replay(h) == Replay(OwnEvents(h))
  {
    if h != [] {
      var n := |h| - 1;
      OtherHandlersIgnored(h[..n]);
      var own := OwnEvents(h);
      if h[n].name == HANDLER_NAME {
        assert own[..|own| - 1] == OwnEvents(h[..n]);
      } else {
        assert own == OwnEvents(h[..n]);
      }
    }
  }

  /** A session's token names its own instance, in every reachable store. */
  lemma {:induction false} TokensMatchKeys(h: seq<Event>, host: string)
    requires host in Replay(h)
    ensures Replay(h)[host].token == TokenFor(host)
    ensures Replay(h)[host].claims.subject == "user@" + InstanceLabel(host)
  {
    var i := SessionGranted(h, host);
    GrantedSession(h, i, host);
  }

  /** Two instances share a token exactly when they are the same, or the unnamed one and "default". */
  lemma TokensDistinguishInstances(a: string, b: string)
    ensures TokenFor(a) == TokenFor(b) <==>
            a == b || (a == "" && b == "default") || (a == "default" && b == "")
  {
    assert TokenFor(a)[10..] == InstanceLabel(a);
    assert TokenFor(b)[10..] == InstanceLabel(b);
  }
}
