/**
 Clients described by a metadata document at their own URL (oauth/cimd.go): what a document must
 say, and the bounded cache of the clients that passed.
 */
module ClientMetadata {
  import opened Wrappers
  import opened Text
  import Scopes

  /** Nanoseconds on one clock. */
  type Time = int

  const MAX_ITEMS := 256
  const MAX_NAME := 200

  /** A parsed URL; the parser itself is given. */
  datatype URL = URL(scheme: string, host: string, hostname: string, path: string, hasUser: bool, fragment: string)

  datatype Document = Document(clientID: string, name: string, redirectURIs: seq<string>, grantTypes: seq<string>,
                               responseTypes: seq<string>, authMethod: string, scope: string, applicationType: string,
                               logoURI: string)

  datatype Client = Client(id: string, name: string, redirectURIs: seq<string>, grantTypes: seq<string>,
                           responseTypes: seq<string>, scopes: seq<string>, audience: seq<string>, isPublic: bool,
                           authMethod: string, logoURI: string)

  datatype Policy = Policy(parse: string -> Option<URL>, allowLoopback: bool, audience: string, cacheTTL: int,
                           allowedScopes: seq<string>, defaultScopes: seq<string>)

  function Allowed(p: Policy): set<string> {
    set s | s in p.allowedScopes
  }

  predicate IsLoopback(hostname: string) {
    hostname in {"localhost", "127.0.0.1", "::1"}
  }

  predicate IsMetadataURL(p: Policy, raw: string) {
    match p.parse(raw)
    case None => false
    case Some(u) =>
      && u.host != "" && !u.hasUser && u.fragment == "" && u.path != "" && u.path != "/"
      && (u.scheme == "https" || (u.scheme == "http" && p.allowLoopback && IsLoopback(u.hostname)))
  }

  predicate ValidRedirectURI(p: Policy, raw: string) {
    && raw != ""
    && match p.parse(raw)
       case None => false
       case Some(u) =>
         u.scheme != "" && u.fragment == "" && (u.scheme == "https" || (u.scheme == "http" && IsLoopback(u.hostname)))
  }

  predicate ValidLogoURI(p: Policy, raw: string) {
    var trimmed := TrimSpace(raw);
    || trimmed == ""
    || (|trimmed| <= 2048 &&
        match p.parse(trimmed)
        case None => false
        case Some(u) => u.scheme == "https" && u.hostname != "" && !u.hasUser && u.fragment == "")
  }

  const GRANT_TYPES := {"authorization_code", "refresh_token"}
  const RESPONSE_TYPES := {"code"}
  const APPLICATION_TYPES := {"native", "web"}

  function ClientName(name: string): string {
    var trimmed := TrimSpace(name);
    var cut := if |trimmed| > MAX_NAME then trimmed[..MAX_NAME] else trimmed;
    if cut == "" then "Dynamic Client" else cut
  }

  method ValidateAll(values: seq<string>, supported: set<string>) returns (ok: bool)
    ensures ok <==> forall v :: v in values ==> v in supported
  {
    for i := 0 to |values|
      invariant forall j :: 0 <= j < i ==> values[j] in supported
    {
      if values[i] !in supported {
        assert values[i] in values;
        return false;
      }
    }
    return true;
  }

  /** The client a document describes, if it is one this server accepts. */
  method ClientFromDocument(p: Policy, clientID: string, d: Document) returns (r: Option<Client>)
    ensures r == Described(p, clientID, d)
  {
    hide ValidRedirectURI, ValidLogoURI, ClientName, Scopes.WithDefault;
    if d.clientID != clientID {
      return None;
    }
    if |d.redirectURIs| == 0 {
      return None;
    }
    for i := 0 to |d.redirectURIs|
      invariant forall j :: 0 <= j < i ==> ValidRedirectURI(p, d.redirectURIs[j])
    {
      if !ValidRedirectURI(p, d.redirectURIs[i]) {
        assert d.redirectURIs[i] in d.redirectURIs;
        return None;
      }
    }
    var grantsOk := ValidateAll(d.grantTypes, GRANT_TYPES);
    if !grantsOk {
      return None;
    }
    var responsesOk := ValidateAll(d.responseTypes, RESPONSE_TYPES);
    if !responsesOk {
      return None;
    }
    if d.applicationType != "" && d.applicationType !in APPLICATION_TYPES {
      return None;
    }
    if d.authMethod != "" && d.authMethod != "none" {
      return None;
    }
    if !ValidLogoURI(p, d.logoURI) {
      return None;
    }
    var scoped := Scopes.NormalizeScopesWithDefault(d.scope, p.defaultScopes, p.allowedScopes, Allowed(p));
    if scoped.Rejected? {
      return None;
    }
    return Some(Client(clientID, ClientName(d.name), d.redirectURIs,
                       if d.grantTypes == [] then ["authorization_code", "refresh_token"] else d.grantTypes,
                       if d.responseTypes == [] then ["code"] else d.responseTypes,
                       scoped.scopes, if p.audience == "" then [] else [p.audience], true, "none", d.logoURI));
  }

  predicate DocumentOk(p: Policy, clientID: string, d: Document) {
    && d.clientID == clientID
    && d.redirectURIs != [] && (forall u :: u in d.redirectURIs ==> ValidRedirectURI(p, u))
    && (forall g :: g in d.grantTypes ==> g in GRANT_TYPES)
    && (forall g :: g in d.responseTypes ==> g in RESPONSE_TYPES)
    && (d.applicationType == "" || d.applicationType in APPLICATION_TYPES)
    && (d.authMethod == "" || d.authMethod == "none")
    && ValidLogoURI(p, d.logoURI)
    && Scopes.WithDefault(d.scope, p.defaultScopes, p.allowedScopes, Allowed(p)).Accepted?
  }

  function Described(p: Policy, clientID: string, d: Document): Option<Client> {
    if !DocumentOk(p, clientID, d) then None
    else
      Some(Client(clientID, ClientName(d.name), d.redirectURIs,
                  if d.grantTypes == [] then ["authorization_code", "refresh_token"] else d.grantTypes,
                  if d.responseTypes == [] then ["code"] else d.responseTypes,
                  Scopes.WithDefault(d.scope, p.defaultScopes, p.allowedScopes, Allowed(p)).scopes,
                  if p.audience == "" then [] else [p.audience], true, "none", d.logoURI))
  }

  /** What every client that is resolved this way satisfies. */
  predicate Acceptable(p: Policy, clientID: string, c: Client) {
    && c.id == clientID && c.isPublic && c.authMethod == "none"
    && c.name != "" && |c.name| <= MAX_NAME
    && c.redirectURIs != [] && (forall u :: u in c.redirectURIs ==> ValidRedirectURI(p, u))
    && c.grantTypes != [] && (forall g :: g in c.grantTypes ==> g in GRANT_TYPES)
    && c.responseTypes != [] && (forall g :: g in c.responseTypes ==> g in RESPONSE_TYPES)
    && (forall s :: s in c.scopes ==> s in p.allowedScopes)
    && (forall a :: a in c.audience ==> a == p.audience)
  }

  lemma DescribedIsAcceptable(p: Policy, clientID: string, d: Document)
    requires Described(p, clientID, d).Some?
    ensures Acceptable(p, clientID, Described(p, clientID, d).value)
  {
    Scopes.AcceptedIsAllowed(d.scope, p.defaultScopes, p.allowedScopes, Allowed(p));
    NameIsPresent(d.name);
    hide Scopes.WithDefault, ValidRedirectURI, ValidLogoURI, ClientName;
  }

  /** A redirect URI is absolute, has no fragment, and is https, or http to the local host. */
  lemma RedirectURIMeans(p: Policy, raw: string)
    ensures ValidRedirectURI(p, raw) <==>
            raw != "" && p.parse(raw).Some? && p.parse(raw).value.fragment == "" &&
            var u := p.parse(raw).value;
            (u.scheme == "https" || (u.scheme == "http" && (u.hostname == "localhost" || u.hostname == "127.0.0.1" || u.hostname == "::1")))
  {
  }

  /** A client metadata URL names a document over https, or over http on the local host where that is allowed. */
  lemma MetadataURLMeans(p: Policy, raw: string)
    ensures IsMetadataURL(p, raw) <==>
            p.parse(raw).Some? &&
            var u := p.parse(raw).value;
            u.host != "" && !u.hasUser && u.fragment == "" && u.path != "" && u.path != "/" &&
            (u.scheme == "https" ||
             (u.scheme == "http" && p.allowLoopback && (u.hostname == "localhost" || u.hostname == "127.0.0.1" || u.hostname == "::1")))
  {
  }

  /** A logo is absent or a short https URL with a host and without user and fragment. */
  lemma LogoURIMeans(p: Policy, raw: string)
    ensures TrimSpace(raw) == "" ==> ValidLogoURI(p, raw)
    ensures TrimSpace(raw) != "" ==>
              var trimmed := TrimSpace(raw);
              ValidLogoURI(p, raw) <==>
              |trimmed| <= 2048 && p.parse(trimmed).Some? && p.parse(trimmed).value.scheme == "https" &&
              p.parse(trimmed).value.hostname != "" && !p.parse(trimmed).value.hasUser && p.parse(trimmed).value.fragment == ""
  {
  }

  /** The name is the document's, trimmed and cut at 200, unless that leaves nothing. */
  lemma ClientNameMeans(name: string)
    ensures TrimSpace(name) == "" ==> ClientName(name) == "Dynamic Client"
    ensures TrimSpace(name) != "" ==> ClientName(name) <= TrimSpace(name) && |ClientName(name)| == if |TrimSpace(name)| <= 200 then |TrimSpace(name)| else 200
  {
  }

  /** The client carries what its document says, and the defaults where it says nothing. */
  lemma DescribedSays(p: Policy, clientID: string, d: Document)
    requires Described(p, clientID, d).Some?
    ensures var c := Described(p, clientID, d).value;
            && c.id == d.clientID == clientID && c.redirectURIs == d.redirectURIs && c.logoURI == d.logoURI
            && c.name == ClientName(d.name) && c.isPublic && c.authMethod == "none"
            && (d.grantTypes != [] ==> c.grantTypes == d.grantTypes)
            && (d.grantTypes == [] ==> c.grantTypes == ["authorization_code", "refresh_token"])
            && (d.responseTypes != [] ==> c.responseTypes == d.responseTypes)
            && (d.responseTypes == [] ==> c.responseTypes == ["code"])
            && (p.audience != "" ==> c.audience == [p.audience]) && (p.audience == "" ==> c.audience == [])
            && (TrimSpace(d.scope) != "" ==> c.scopes == Fields(d.scope))
            && (TrimSpace(d.scope) == "" ==>
                  forall v :: v in c.scopes <==> v != "" && Scopes.Configured(v, p.defaultScopes, p.allowedScopes))
  {
    hide ValidRedirectURI, ValidLogoURI, ClientName, TrimSpace, Fields, Scopes.Configured;
    if TrimSpace(d.scope) == "" {
      Scopes.DefaultsAreComplete(d.scope, p.defaultScopes, p.allowedScopes, Allowed(p));
      hide Scopes.WithDefault;
    } else {
      Scopes.ExplicitRoundTrip(d.scope, Allowed(p));
      hide Scopes.Explicit;
    }
  }

  /** The scopes that a document asks for, or that it gets for asking nothing, are all served. */
  ghost predicate ScopesServed(p: Policy, scope: string) {
    if TrimSpace(scope) != "" then forall v :: v in Fields(scope) ==> v in p.allowedScopes
    else forall v :: Scopes.Configured(v, p.defaultScopes, p.allowedScopes) && v != "" ==> v in p.allowedScopes
  }

  /** Exactly which documents are accepted. */
  lemma DescribedIff(p: Policy, clientID: string, d: Document)
    ensures Described(p, clientID, d).Some? <==>
            && d.clientID == clientID
            && |d.redirectURIs| > 0 && (forall u :: u in d.redirectURIs ==> ValidRedirectURI(p, u))
            && (forall g :: g in d.grantTypes ==> g == "authorization_code" || g == "refresh_token")
            && (forall g :: g in d.responseTypes ==> g == "code")
            && (d.applicationType == "" || d.applicationType == "native" || d.applicationType == "web")
            && (d.authMethod == "" || d.authMethod == "none")
            && ValidLogoURI(p, d.logoURI) && ScopesServed(p, d.scope)
  {
    hide ValidRedirectURI, ValidLogoURI, ClientName;
    ScopesServedMeans(p, d.scope);
    hide Scopes.WithDefault, ScopesServed;
  }

  lemma ScopesServedMeans(p: Policy, scope: string)
    ensures Scopes.WithDefault(scope, p.defaultScopes, p.allowedScopes, Allowed(p)).Accepted? <==> ScopesServed(p, scope)
  {
    hide TrimSpace, Fields, Scopes.Configured;
    if TrimSpace(scope) == "" {
      Scopes.DefaultsAreComplete(scope, p.defaultScopes, p.allowedScopes, Allowed(p));
      hide Scopes.WithDefault;
    } else {
      Scopes.ExplicitRoundTrip(scope, Allowed(p));
      hide Scopes.Explicit;
    }
  }

  lemma NameIsPresent(name: string)
    ensures ClientName(name) != "" && |ClientName(name)| <= MAX_NAME
  {
  }

  // ---------------------------------------------------------------------------------------------
  // The cache
  // ---------------------------------------------------------------------------------------------

  datatype Item = Item(client: Client, expiresAt: Time)

  type Cache = map<string, Item>

  function Live(cache: Cache, now: Time): Cache {
    map k | k in cache && cache[k].expiresAt > now :: cache[k]
  }

  /** An expired item is dropped on the way. */
  function AfterLookup(cache: Cache, id: string, now: Time): Cache {
    if id in cache && cache[id].expiresAt <= now then cache - {id} else cache
  }

  function Looked(cache: Cache, id: string, now: Time): Option<Client> {
    if id in cache && cache[id].expiresAt > now then Some(cache[id].client) else None
  }

  /** `cached`; a server without a cache lifetime never answers from the cache. */
  function Answer(p: Policy, cache: Cache, id: string, now: Time): Option<Client> {
    if p.cacheTTL <= 0 then None else Looked(cache, id, now)
  }

  function AfterAnswer(p: Policy, cache: Cache, id: string, now: Time): Cache {
    if p.cacheTTL <= 0 then cache else AfterLookup(cache, id, now)
  }

  /** A look-up answers exactly while the item is live and the server caches; it drops what has expired and touches nothing else. */
  lemma AnswerMeans(p: Policy, cache: Cache, id: string, now: Time, other: string)
    ensures Answer(p, cache, id, now).Some? <==> p.cacheTTL > 0 && id in cache && now < cache[id].expiresAt
    ensures Answer(p, cache, id, now).Some? ==> Answer(p, cache, id, now).value == cache[id].client
    ensures p.cacheTTL > 0 && id in cache && cache[id].expiresAt <= now ==> id !in AfterAnswer(p, cache, id, now)
    ensures p.cacheTTL > 0 && other in AfterAnswer(p, cache, id, now) ==> other in cache
    ensures other != id && other in cache ==>
              other in AfterAnswer(p, cache, id, now) && AfterAnswer(p, cache, id, now)[other] == cache[other]
  {
  }

  /** What is stored is found again until its lifetime has passed, and not after; nothing is stored for no lifetime. */
  lemma StoreThenAnswer(p: Policy, cache: Cache, id: string, client: Client, lifetime: int, t1: Time, t2: Time, victim: string, now: Time)
    ensures lifetime <= 0 ==> Stored(cache, id, client, lifetime, t1, t2, victim) == cache
    ensures lifetime > 0 && p.cacheTTL > 0 ==>
              Answer(p, Stored(cache, id, client, lifetime, t1, t2, victim), id, now) == if now < t2 + lifetime then Some(client) else None
  {
  }

  /** What is left when room has been made for one more item; `victim` is any item if all are live. */
  function Room(cache: Cache, now: Time, victim: string): Cache {
    if |cache| < MAX_ITEMS then cache
    else if |Live(cache, now)| < MAX_ITEMS then Live(cache, now)
    else Live(cache, now) - {victim}
  }

  predicate VictimOk(cache: Cache, now: Time, victim: string) {
    |Live(cache, now)| >= MAX_ITEMS ==> victim in Live(cache, now)
  }

  /** `store`, with the clock samples it takes for eviction and for the expiry. */
  function Stored(cache: Cache, id: string, client: Client, lifetime: int, t1: Time, t2: Time, victim: string): Cache {
    if lifetime <= 0 then cache else Room(cache, t1, victim)[id := Item(client, t2 + lifetime)]
  }

  datatype Resolved = NotAMetadataURL | Failed | Ok(client: Client)

  class Fetcher {
    const policy: Policy
    var cache: Cache

    ghost predicate Valid()
      reads this
    {
      |cache| <= MAX_ITEMS && forall k :: k in cache ==> Acceptable(policy, k, cache[k].client)
    }

    constructor (policy: Policy)
      ensures this.policy == policy && cache == map[] && Valid()
    {
      this.policy, cache := policy, map[];
    }

    method Cached(id: string, now: Time) returns (r: Option<Client>)
      modifies this
      ensures r == Answer(policy, old(cache), id, now) && cache == AfterAnswer(policy, old(cache), id, now)
      ensures old(Valid()) ==> Valid()
    {
      if policy.cacheTTL <= 0 {
        return None;
      }
      if id !in cache {
        return None;
      }
      var entry := cache[id];
      if entry.expiresAt <= now {
        SubmapSize(cache - {id}, cache);
        cache := cache - {id};
        return None;
      }
      return Some(entry.client);
    }

    method EvictExpired(now: Time)
      modifies this
      ensures cache == Live(old(cache), now)
    {
      var todo := cache.Keys;
      while todo != {}
        invariant todo <= old(cache).Keys
        invariant cache == map k | k in old(cache) && (k in todo || old(cache)[k].expiresAt > now) :: old(cache)[k]
        decreases |todo|
      {
        var key :| key in todo;
        if cache[key].expiresAt <= now {
          cache := cache - {key};
        }
        todo := todo - {key};
      }
    }

    method Store(id: string, client: Client, lifetime: int, t1: Time, t2: Time) returns (ghost victim: string)
      modifies this
      ensures VictimOk(old(cache), t1, victim)
      ensures cache == Stored(old(cache), id, client, lifetime, t1, t2, victim)
    {
      victim := var live := Live(cache, t1); if live == map[] then "" else var k :| k in live; k;
      if lifetime <= 0 {
        return;
      }
      if |cache| >= MAX_ITEMS {
        EvictExpired(t1);
      }
      if |cache| >= MAX_ITEMS {
        var key :| key in cache;
        victim := key;
        cache := cache - {key};
      }
      cache := cache[id := Item(client, t2 + lifetime)];
    }

    /** `fetched` is the decoded document and its lifetime, if fetching succeeded. */
    method ResolveClient(id: string, fetched: Option<(Document, int)>, t0: Time, t1: Time, t2: Time)
      returns (r: Resolved, ghost victim: string)
      requires Valid()
      modifies this
      ensures Valid()
      ensures r.Ok? ==> Acceptable(policy, id, r.client)
      ensures r == Resolution(policy, old(cache), id, fetched, t0)
      ensures cache == if r.NotAMetadataURL? then old(cache)
                       else if r.Ok? && Answer(policy, old(cache), id, t0).None?
                       then Stored(AfterAnswer(policy, old(cache), id, t0), id, r.client, fetched.value.1, t1, t2, victim)
                       else AfterAnswer(policy, old(cache), id, t0)
      ensures r.Ok? && Answer(policy, old(cache), id, t0).None? ==> VictimOk(AfterAnswer(policy, old(cache), id, t0), t1, victim)
    {
      hide Acceptable, Described, IsMetadataURL, VictimOk, Stored;
      victim := "";
      if !IsMetadataURL(policy, id) {
        return NotAMetadataURL, victim;
      }
      var hit := Cached(id, t0);
      if hit.Some? {
        return Ok(hit.value), victim;
      }
      if fetched.None? {
        return Failed, victim;
      }
      var client := ClientFromDocument(policy, id, fetched.value.0);
      if client.None? {
        return Failed, victim;
      }
      DescribedIsAcceptable(policy, id, fetched.value.0);
      victim := StoreAcceptable(id, client.value, fetched.value.1, t1, t2);
      return Ok(client.value), victim;
    }

    method StoreAcceptable(id: string, client: Client, lifetime: int, t1: Time, t2: Time) returns (ghost victim: string)
      requires Valid() && Acceptable(policy, id, client)
      modifies this
      ensures Valid() && VictimOk(old(cache), t1, victim)
      ensures cache == Stored(old(cache), id, client, lifetime, t1, t2, victim)
    {
      hide Acceptable;
      victim := Store(id, client, lifetime, t1, t2);
      RoomIsBounded(old(cache), t1, victim);
      PutSize(Room(old(cache), t1, victim), id, Item(client, t2 + lifetime));
    }
  }

  /** A live cached client, or else the one its document describes. */
  function Resolution(p: Policy, cache: Cache, id: string, fetched: Option<(Document, int)>, t0: Time): Resolved {
    if !IsMetadataURL(p, id) then NotAMetadataURL
    else if Answer(p, cache, id, t0).Some? then Ok(Answer(p, cache, id, t0).value)
    else if fetched.None? || Described(p, id, fetched.value.0).None? then Failed
    else Ok(Described(p, id, fetched.value.0).value)
  }

  // ---------------------------------------------------------------------------------------------
  // Runs
  // ---------------------------------------------------------------------------------------------

  /** The cache beside an unbounded timed map that keeps the latest item stored for each ID. */
  datatype Sys = Sys(clock: Time, cache: Cache, latest: Cache)

  /** Lookups and stores of concurrent resolutions, in any order. */
  datatype Action =
    | Tick(delta: nat)
    | Lookup(id: string)
    | Fetched(id: string, document: Document, lifetime: int, pause: nat, victim: string)

  function Step(p: Policy, s: Sys, a: Action): Sys {
    match a
    case Tick(delta) => s.(clock := s.clock + delta)
    case Lookup(id) => s.(cache := AfterAnswer(p, s.cache, id, s.clock))
    case Fetched(id, document, lifetime, pause, victim) =>
      var client := Described(p, id, document);
      if client.None? || lifetime <= 0 || !VictimOk(s.cache, s.clock, victim) then s else
      Sys(s.clock + pause,
          Stored(s.cache, id, client.value, lifetime, s.clock, s.clock + pause, victim),
          s.latest[id := Item(client.value, s.clock + pause + lifetime)])
  }

  function Run(p: Policy, s: Sys, actions: seq<Action>): Sys
    decreases |actions|
  {
    if actions == [] then s else Run(p, Step(p, s, actions[0]), actions[1..])
  }

  predicate Init(s: Sys) {
    s.cache == map[] && s.latest == map[]
  }

  /** What a store does to the other items: nothing below capacity, and at capacity the expired ones go and, if that is not enough, one more. */
  lemma StoreKeepsOthers(cache: Cache, id: string, client: Client, lifetime: int, t1: Time, t2: Time, victim: string, other: string)
    requires lifetime > 0 && other != id
    ensures var after := Stored(cache, id, client, lifetime, t1, t2, victim);
            && (other in after <==>
                  other in cache && (|cache| < 256 || (t1 < cache[other].expiresAt && (|Live(cache, t1)| < 256 || other != victim))))
            && (other in after ==> after[other] == cache[other])
  {
  }

  lemma SubmapSize(a: Cache, b: Cache)
    requires a.Keys <= b.Keys
    ensures |a| <= |b|
  {
    SubsetSize(a.Keys, b.Keys);
    assert |a| == |a.Keys| && |b| == |b.Keys|;
  }

  lemma {:induction false} SubsetSize(a: set<string>, b: set<string>)
    requires a <= b
    ensures |a| <= |b|
  {
    if a != {} {
      var x :| x in a;
      SubsetSize(a - {x}, b - {x});
    }
  }

  lemma RoomIsBounded(cache: Cache, now: Time, victim: string)
    requires |cache| <= MAX_ITEMS && VictimOk(cache, now, victim)
    ensures |Room(cache, now, victim)| < MAX_ITEMS
    ensures forall k :: k in Room(cache, now, victim) ==> k in cache && Room(cache, now, victim)[k] == cache[k]
  {
    var live := Live(cache, now);
    SubmapSize(live, cache);
    var room := Room(cache, now, victim);
    if |cache| >= MAX_ITEMS && |live| >= MAX_ITEMS {
      assert room.Keys == live.Keys - {victim};
      assert |live.Keys - {victim}| == |live.Keys| - 1;
      assert |room| == |room.Keys| && |live| == |live.Keys|;
    }
  }

  lemma PutSize(cache: Cache, id: string, item: Item)
    ensures |cache[id := item]| <= |cache| + 1
  {
  }

  /** Every cached item is the latest one stored for its ID. */
  ghost predicate Agrees(s: Sys) {
    |s.cache| <= MAX_ITEMS && forall k :: k in s.cache ==> k in s.latest && s.cache[k] == s.latest[k]
  }

  ghost predicate Inv(p: Policy, s: Sys) {
    Agrees(s) && forall k :: k in s.latest ==> Acceptable(p, k, s.latest[k].client)
  }

  lemma StoreAgrees(s: Sys, t: Sys, id: string, item: Item, victim: string)
    requires Agrees(s) && VictimOk(s.cache, s.clock, victim)
    requires t.cache == Room(s.cache, s.clock, victim)[id := item] && t.latest == s.latest[id := item]
    ensures Agrees(t)
  {
    RoomIsBounded(s.cache, s.clock, victim);
    PutSize(Room(s.cache, s.clock, victim), id, item);
    hide Room, VictimOk;
  }

  lemma FetchedKeepsInv(p: Policy, s: Sys, a: Action)
    requires Inv(p, s) && a.Fetched?
    ensures Inv(p, Step(p, s, a))
  {
    hide Acceptable, Described, VictimOk, Room, Agrees;
    var t := Step(p, s, a);
    if t != s {
      DescribedIsAcceptable(p, a.id, a.document);
      StoreAgrees(s, t, a.id, t.latest[a.id], a.victim);
    }
  }

  lemma LookupKeepsInv(p: Policy, s: Sys, id: string)
    requires Inv(p, s)
    ensures Inv(p, s.(cache := AfterAnswer(p, s.cache, id, s.clock)))
  {
    hide Acceptable;
    SubmapSize(AfterAnswer(p, s.cache, id, s.clock), s.cache);
  }

  lemma TickKeepsInv(p: Policy, s: Sys, delta: nat)
    requires Inv(p, s)
    ensures Inv(p, s.(clock := s.clock + delta))
  {
  }

  lemma StepKeepsInv(p: Policy, s: Sys, a: Action)
    requires Inv(p, s)
    ensures Inv(p, Step(p, s, a))
  {
    hide Inv, Described;
    match a
    case Tick(delta) => TickKeepsInv(p, s, delta);
    case Lookup(id) => LookupKeepsInv(p, s, id);
    case Fetched(_, _, _, _, _) => FetchedKeepsInv(p, s, a);
  }

  lemma {:induction false} RunKeepsInv(p: Policy, s: Sys, actions: seq<Action>)
    requires Inv(p, s)
    ensures Inv(p, Run(p, s, actions))
    decreases |actions|
  {
    hide Inv;
    if actions != [] {
      StepKeepsInv(p, s, actions[0]);
      RunKeepsInv(p, Step(p, s, actions[0]), actions[1..]);
    }
  }

  // ---------------------------------------------------------------------------------------------
  // Main results
  // ---------------------------------------------------------------------------------------------

  /** Over every run the cache stays small, and every hit is the latest client stored, unexpired and acceptable. */
  lemma CacheRefinesTimedMap(p: Policy, s0: Sys, actions: seq<Action>, id: string)
    requires Init(s0)
    ensures var s := Run(p, s0, actions);
            && |s.cache| <= MAX_ITEMS
            && (Looked(s.cache, id, s.clock).Some? ==>
                  && Looked(s.latest, id, s.clock) == Looked(s.cache, id, s.clock)
                  && Acceptable(p, id, Looked(s.cache, id, s.clock).value))
  {
    RunKeepsInv(p, s0, actions);
  }

  /** At the present time the cache answers exactly as the unbounded map does. */
  ghost predicate Exact(s: Sys) {
    forall id :: Looked(s.cache, id, s.clock) == Looked(s.latest, id, s.clock)
  }

  /** The action stores a client. */
  predicate Stores(p: Policy, s: Sys, a: Action) {
    a.Fetched? && Described(p, a.id, a.document).Some? && a.lifetime > 0 && VictimOk(s.cache, s.clock, a.victim)
  }

  /** Whenever a client is stored, fewer than 256 of those stored before are unexpired. */
  predicate HasRoom(p: Policy, s: Sys, actions: seq<Action>)
    decreases |actions|
  {
    actions == [] ||
    ((Stores(p, s, actions[0]) ==> |Live(s.latest, s.clock)| < MAX_ITEMS) && HasRoom(p, Step(p, s, actions[0]), actions[1..]))
  }

  lemma StoreWithRoomIsExact(s: Sys, t: Sys, id: string, item: Item, victim: string)
    requires Agrees(s) && Exact(s) && s.clock <= t.clock && |Live(s.latest, s.clock)| < MAX_ITEMS
    requires t.cache == Room(s.cache, s.clock, victim)[id := item] && t.latest == s.latest[id := item]
    ensures Exact(t)
  {
    SubmapSize(Live(s.cache, s.clock), Live(s.latest, s.clock));
    forall k
      ensures Looked(t.cache, k, t.clock) == Looked(t.latest, k, t.clock)
    {
      assert Looked(s.cache, k, s.clock) == Looked(s.latest, k, s.clock);
    }
  }

  lemma StepKeepsExact(p: Policy, s: Sys, a: Action)
    requires Inv(p, s) && Exact(s) && (Stores(p, s, a) ==> |Live(s.latest, s.clock)| < MAX_ITEMS)
    ensures Exact(Step(p, s, a))
  {
    hide Acceptable, Described, VictimOk, Room;
    var t := Step(p, s, a);
    if Stores(p, s, a) {
      hide Exact, Live;
      StoreWithRoomIsExact(s, t, a.id, t.latest[a.id], a.victim);
    } else {
      forall k
        ensures Looked(t.cache, k, t.clock) == Looked(t.latest, k, t.clock)
      {
        assert Looked(s.cache, k, s.clock) == Looked(s.latest, k, s.clock);
      }
    }
  }

  lemma {:induction false} RunKeepsExact(p: Policy, s: Sys, actions: seq<Action>)
    requires Inv(p, s) && Exact(s) && HasRoom(p, s, actions)
    ensures Exact(Run(p, s, actions))
    decreases |actions|
  {
    hide Inv, Exact, Stores;
    if actions != [] {
      StepKeepsExact(p, s, actions[0]);
      StepKeepsInv(p, s, actions[0]);
      RunKeepsExact(p, Step(p, s, actions[0]), actions[1..]);
    }
  }

  /** While every store finds fewer than 256 unexpired clients, the cache answers exactly as the unbounded map does. */
  lemma CacheIsExactBelowCapacity(p: Policy, s0: Sys, actions: seq<Action>, id: string)
    requires Init(s0) && HasRoom(p, s0, actions)
    ensures var s := Run(p, s0, actions); Looked(s.cache, id, s.clock) == Looked(s.latest, id, s.clock)
  {
    RunKeepsExact(p, s0, actions);
  }

  /** With 256 live items or more, a store costs another one its place, even if the ID was cached already. */
  lemma StoreAtCapacityEvictsAnother(cache: Cache, id: string, client: Client, lifetime: int, t1: Time, t2: Time, victim: string)
    requires |Live(cache, t1)| >= MAX_ITEMS && lifetime > 0
    requires victim in Live(cache, t1) && victim != id
    ensures Looked(cache, victim, t1).Some?
    ensures victim !in Stored(cache, id, client, lifetime, t1, t2, victim)
  {
    SubmapSize(Live(cache, t1), cache);
  }

  lemma {:induction false} AnotherMember(s: set<string>, id: string) returns (other: string)
    requires |s| >= 2
    ensures other in s && other != id
  {
    assert |s| <= 1 + |s - {id}|;
    other :| other in s - {id};
  }

  /** A store loses no other live item, whatever the choice of the victim, exactly when fewer than 256 are live. */
  lemma StoreLosesNothingIff(cache: Cache, id: string, client: Client, lifetime: int, t1: Time, t2: Time)
    requires lifetime > 0
    ensures |Live(cache, t1)| < MAX_ITEMS <==>
            forall victim, k :: VictimOk(cache, t1, victim) && k != id && k in Live(cache, t1) ==>
                                  k in Stored(cache, id, client, lifetime, t1, t2, victim)
  {
    if |Live(cache, t1)| >= MAX_ITEMS {
      assert |Live(cache, t1)| == |Live(cache, t1).Keys|;
      var victim := AnotherMember(Live(cache, t1).Keys, id);
      StoreAtCapacityEvictsAnother(cache, id, client, lifetime, t1, t2, victim);
      assert VictimOk(cache, t1, victim) && victim in Live(cache, t1);
    }
  }

  /**
   The condition is exact: from an exact cache, storing a client without delay leaves it exact, whatever
   the choice of the victim, if and only if fewer than 256 clients are unexpired.
   */
  lemma ExactStoreIff(p: Policy, s0: Sys, actions: seq<Action>, id: string, document: Document, lifetime: int)
    requires Init(s0) && Exact(Run(p, s0, actions))
    requires Described(p, id, document).Some? && lifetime > 0
    ensures var s := Run(p, s0, actions);
            |Live(s.latest, s.clock)| < MAX_ITEMS <==>
            forall victim :: VictimOk(s.cache, s.clock, victim) ==> Exact(Step(p, s, Fetched(id, document, lifetime, 0, victim)))
  {
    hide Acceptable, Described;
    var s := Run(p, s0, actions);
    RunKeepsInv(p, s0, actions);
    if |Live(s.latest, s.clock)| < MAX_ITEMS {
      forall victim | VictimOk(s.cache, s.clock, victim)
        ensures Exact(Step(p, s, Fetched(id, document, lifetime, 0, victim)))
      {
        StepKeepsExact(p, s, Fetched(id, document, lifetime, 0, victim));
      }
    } else {
      var victim := AtCapacityNotExact(p, s, id, document, lifetime);
    }
  }

  lemma AtCapacityNotExact(p: Policy, s: Sys, id: string, document: Document, lifetime: int) returns (victim: string)
    requires Inv(p, s) && Exact(s) && |Live(s.latest, s.clock)| >= MAX_ITEMS
    requires Described(p, id, document).Some? && lifetime > 0
    ensures VictimOk(s.cache, s.clock, victim) && !Exact(Step(p, s, Fetched(id, document, lifetime, 0, victim)))
  {
    hide Acceptable, Described, Room;
    var live := Live(s.latest, s.clock);
    assert Live(s.cache, s.clock) == live by {
      forall k
        ensures k in Live(s.cache, s.clock) <==> k in live
      {
        assert Looked(s.cache, k, s.clock) == Looked(s.latest, k, s.clock);
      }
    }
    assert |live| == |live.Keys|;
    victim := AnotherMember(live.Keys, id);
    var client := Described(p, id, document).value;
    StoreAtCapacityEvictsAnother(s.cache, id, client, lifetime, s.clock, s.clock, victim);
    var t := Step(p, s, Fetched(id, document, lifetime, 0, victim));
    assert Looked(t.latest, victim, t.clock).Some? && Looked(t.cache, victim, t.clock).None?;
  }
}
