/**
 The WWW-Authenticate header (oauth/middleware.go): its quoted parameters read back as they were.
 */
module AuthChallenge {
  import opened Wrappers
  import opened Text

  const BACKSLASH := '\\'
  const QUOTE := '"'

  /** quoteAuthParam */
  function Quoted(v: string): string {
    if v == [] then []
    else (if v[0] == BACKSLASH || v[0] == QUOTE then [BACKSLASH, v[0]] else [v[0]]) + Quoted(v[1..])
  }

  datatype Scan = Scan(value: string, rest: string)

  /** Reads a quoted-string after its opening quote (section 5.6.4 of RFC 9110). */
  function ScanQuoted(s: string): Option<Scan> {
    if s == [] then None
    else if s[0] == QUOTE then Some(Scan([], s[1..]))
    else if s[0] == BACKSLASH && |s| == 1 then None
    else
      var c, tail := if s[0] == BACKSLASH then s[1] else s[0], if s[0] == BACKSLASH then s[2..] else s[1..];
      match ScanQuoted(tail)
      case None => None
      case Some(Scan(value, rest)) => Some(Scan([c] + value, rest))
  }

  predicate Special(c: char) {
    c == BACKSLASH || c == QUOTE
  }

  lemma ScanOne(c: char, tail: string)
    requires ScanQuoted(tail).Some?
    ensures ScanQuoted((if Special(c) then [BACKSLASH, c] else [c]) + tail) ==
            Some(Scan([c] + ScanQuoted(tail).value.value, ScanQuoted(tail).value.rest))
  {
  }

  /** Whatever the value and whatever follows, the scan stops at the closing quote and yields the value. */
  lemma {:induction false} QuotedScansBack(v: string, rest: string)
    ensures ScanQuoted(Quoted(v) + [QUOTE] + rest) == Some(Scan(v, rest))
  {
    if v == [] {
      var s := [QUOTE] + rest;
      assert s[0] == QUOTE && s[1..] == rest;
      assert Quoted(v) + [QUOTE] + rest == s;
    } else {
      hide ScanQuoted;
      QuotedScansBack(v[1..], rest);
      var tail := Quoted(v[1..]) + [QUOTE] + rest;
      ScanOne(v[0], tail);
      assert Quoted(v) + [QUOTE] + rest == (if Special(v[0]) then [BACKSLASH, v[0]] else [v[0]]) + tail;
      assert v == [v[0]] + v[1..];
    }
  }

  lemma {:induction false} QuotedConcat(a: string, b: string)
    ensures Quoted(a + b) == Quoted(a) + Quoted(b)
  {
    if a == [] {
      assert a + b == b;
    } else {
      assert (a + b)[1..] == a[1..] + b;
      QuotedConcat(a[1..], b);
    }
  }

  lemma {:induction false} QuotedPlain(v: string)
    requires BACKSLASH !in v && QUOTE !in v
    ensures Quoted(v) == v
  {
    if v != [] {
      QuotedPlain(v[1..]);
      assert v == [v[0]] + v[1..];
    }
  }

  // Lists of parameters --------------------------------------------------------------------------

  datatype Param = Param(name: string, value: string)

  /** name="text", the text taken as it is */
  function Named(name: string, text: string): string {
    name + "=\"" + text + "\""
  }

  function PrintParam(p: Param): string {
    Named(p.name, Quoted(p.value))
  }

  function PrintParams(ps: seq<Param>): string {
    if ps == [] then []
    else if |ps| == 1 then PrintParam(ps[0])
    else PrintParam(ps[0]) + ", " + PrintParams(ps[1..])
  }

  /** The name up to the equals sign, and what follows it. */
  function ScanName(s: string): Option<Scan> {
    if s == [] then None
    else if s[0] == '=' then Some(Scan([], s[1..]))
    else match ScanName(s[1..])
      case None => None
      case Some(Scan(value, rest)) => Some(Scan([s[0]] + value, rest))
  }

  lemma {:induction false} NameScansBack(name: string, rest: string)
    requires '=' !in name
    ensures ScanName(name + "=" + rest) == Some(Scan(name, rest))
  {
    if name == [] {
      assert name + "=" + rest == "=" + rest && ("=" + rest)[1..] == rest;
    } else {
      assert (name + "=" + rest)[1..] == name[1..] + "=" + rest;
      NameScansBack(name[1..], rest);
      assert name == [name[0]] + name[1..];
    }
  }

  lemma {:induction false} ScansShorten(s: string)
    ensures ScanName(s).Some? ==> |ScanName(s).value.rest| < |s|
    ensures ScanQuoted(s).Some? ==> |ScanQuoted(s).value.rest| < |s|
    decreases |s|
  {
    if s != [] {
      ScansShorten(s[1..]);
      if |s| > 1 {
        ScansShorten(s[2..]);
      }
    }
  }

  /** Reads name="value" pairs separated by a comma and a space. */
  function ParseParams(s: string): Option<seq<Param>>
    decreases |s|
  {
    match ScanName(s)
    case None => None
    case Some(Scan(name, s1)) =>
      if s1 == [] || s1[0] != QUOTE then None
      else match ScanQuoted(s1[1..])
        case None => None
        case Some(Scan(value, s2)) =>
          if s2 == [] then Some([Param(name, value)])
          else if !(", " <= s2) then None
          else
            ScansShorten(s);
            ScansShorten(s1[1..]);
            match ParseParams(s2[2..])
            case None => None
            case Some(ps) => Some([Param(name, value)] + ps)
  }

  lemma {:induction false} ParamsParseBack(ps: seq<Param>)
    requires ps != [] && forall p :: p in ps ==> '=' !in p.name
    ensures ParseParams(PrintParams(ps)) == Some(ps)
  {
    hide Quoted, ScanQuoted, ScanName;
    var p := ps[0];
    assert p in ps;
    var after := if |ps| == 1 then [] else ", " + PrintParams(ps[1..]);
    assert PrintParams(ps) == p.name + "=" + ([QUOTE] + (Quoted(p.value) + [QUOTE] + after));
    if |ps| > 1 {
      assert after[2..] == PrintParams(ps[1..]);
      ParamsParseBack(ps[1..]);
      assert ps == [p] + ps[1..];
    } else {
      assert ps == [p] + [];
    }
    ParseOne(p, after);
  }

  lemma ParseOne(p: Param, after: string)
    requires '=' !in p.name && (after == [] || (", " <= after && ParseParams(after[2..]).Some?))
    ensures ParseParams(p.name + "=" + ([QUOTE] + (Quoted(p.value) + [QUOTE] + after))) ==
            Some([p] + if after == [] then [] else ParseParams(after[2..]).value)
  {
    hide Quoted, ScanQuoted, ScanName;
    var quoted := Quoted(p.value) + [QUOTE] + after;
    NameScansBack(p.name, [QUOTE] + quoted);
    assert ([QUOTE] + quoted)[1..] == quoted;
    QuotedScansBack(p.value, after);
    var text := p.name + "=" + ([QUOTE] + quoted);
    assert ScanName(text) == Some(Scan(p.name, [QUOTE] + quoted));
    assert ScanQuoted(([QUOTE] + quoted)[1..]) == Some(Scan(p.value, after));
    assert p == Param(p.name, p.value) && [p] + [] == [p];
  }

  // The challenge --------------------------------------------------------------------------------

  /** What the challenge says about the error, before any quoting. */
  function ErrorParams(requiredScope: string, status: int): seq<Param> {
    if status != 403 then [Param("error", "invalid_token"), Param("error_description", "Missing or invalid access token")]
    else if requiredScope == "" then []
    else [Param("error", "insufficient_scope"), Param("error_description", "Requires scope: " + requiredScope),
          Param("scope", requiredScope)]
  }

  function ResourceParams(resourceMetadataURL: string): seq<Param> {
    [Param("realm", "OAuth")] +
    if resourceMetadataURL == "" then [] else [Param("resource_metadata", resourceMetadataURL)]
  }

  function ChallengeParams(resourceMetadataURL: string, requiredScope: string, status: int): seq<Param> {
    ResourceParams(resourceMetadataURL) + ErrorParams(requiredScope, status)
  }

  const SCHEME := "Bearer "

  /**
   The header that writeBearerChallenge leaves behind. Only the URL and the scope are quoted, yet
   all of it reads back as exactly the parameters.
   */
  method BearerChallenge(resourceMetadataURL: string, requiredScope: string, status: int) returns (challenge: string)
    ensures challenge == SCHEME + PrintParams(ChallengeParams(resourceMetadataURL, requiredScope, status))
    ensures ParseParams(challenge[|SCHEME|..]) == Some(ChallengeParams(resourceMetadataURL, requiredScope, status))
    ensures "Bearer " <= challenge
  {
    hide Quoted, Named, PrintParams, ParseParams, ErrorParams, InsufficientScope, InvalidToken;
    ResourceText(resourceMetadataURL);
    challenge := SCHEME + Named("realm", "OAuth");
    if resourceMetadataURL != "" {
      challenge := challenge + ", " + Named("resource_metadata", Quoted(resourceMetadataURL));
    }
    ghost var base := ResourceParams(resourceMetadataURL);
    assert challenge == SCHEME + PrintParams(base);
    hide ResourceParams;
    if status == 403 {
      if requiredScope != "" {
        challenge := challenge + InsufficientScope(requiredScope);
      }
    } else {
      challenge := challenge + InvalidToken();
    }
    ErrorText(base, requiredScope, status);
    ChallengeReadsBack(resourceMetadataURL, requiredScope, status);
    assert challenge[|SCHEME|..] == PrintParams(ChallengeParams(resourceMetadataURL, requiredScope, status));
  }

  function InsufficientScope(scope: string): string {
    ", " + Named("error", "insufficient_scope") + ", " + Named("error_description", "Requires scope: " + Quoted(scope))
    + ", " + Named("scope", Quoted(scope))
  }

  function InvalidToken(): string {
    ", " + Named("error", "invalid_token") + ", " + Named("error_description", "Missing or invalid access token")
  }

  lemma ResourceText(url: string)
    ensures ResourceParams(url) != []
    ensures PrintParams(ResourceParams(url)) ==
            Named("realm", "OAuth") + if url == "" then "" else ", " + Named("resource_metadata", Quoted(url))
  {
    hide Quoted, Named;
    FixedTexts();
    var realm := Param("realm", "OAuth");
    if url != "" {
      PrintAppended([realm], Param("resource_metadata", url));
    }
  }

  /** Quoting changes none of the fixed texts. */
  lemma FixedTexts()
    ensures Quoted("OAuth") == "OAuth" && Quoted("insufficient_scope") == "insufficient_scope"
    ensures Quoted("invalid_token") == "invalid_token"
  {
    hide Quoted;
    QuotedPlain("OAuth");
    QuotedPlain("insufficient_scope");
    QuotedPlain("invalid_token");
  }

  lemma FixedDescription()
    ensures Quoted("Missing or invalid access token") == "Missing or invalid access token"
  {
    hide Quoted;
    QuotedPlain("Missing or invalid access token");
  }

  /** In the description only the scope is quoted. */
  lemma ScopeDescription(scope: string)
    ensures Quoted("Requires scope: " + scope) == "Requires scope: " + Quoted(scope)
  {
    hide Quoted;
    QuotedPlain("Requires scope: ");
    QuotedConcat("Requires scope: ", scope);
  }

  /** The text after the resource prints the error parameters. */
  lemma ErrorText(base: seq<Param>, requiredScope: string, status: int)
    requires base != []
    ensures PrintParams(base + ErrorParams(requiredScope, status)) ==
            PrintParams(base) + (if status != 403 then InvalidToken()
                                 else if requiredScope == "" then "" else InsufficientScope(requiredScope))
  {
    hide Quoted, Named, PrintParams;
    FixedTexts();
    var errors := ErrorParams(requiredScope, status);
    if status != 403 {
      FixedDescription();
      PrintTwoMore(base, errors[0], errors[1]);
      assert base + errors == base + [errors[0]] + [errors[1]];
    } else if requiredScope == "" {
      assert base + errors == base;
    } else {
      ScopeDescription(requiredScope);
      PrintTwoMore(base, errors[0], errors[1]);
      PrintAppended(base + [errors[0]] + [errors[1]], errors[2]);
      assert base + errors == base + [errors[0]] + [errors[1]] + [errors[2]];
    }
  }

  lemma PrintTwoMore(ps: seq<Param>, p: Param, q: Param)
    requires ps != []
    ensures PrintParams(ps + [p] + [q]) == PrintParams(ps) + ", " + PrintParam(p) + ", " + PrintParam(q)
  {
    hide PrintParam, PrintParams;
    PrintAppended(ps, p);
    PrintAppended(ps + [p], q);
  }

  lemma {:induction false} PrintAppended(ps: seq<Param>, p: Param)
    requires ps != []
    ensures PrintParams(ps + [p]) == PrintParams(ps) + ", " + PrintParam(p)
  {
    if |ps| == 1 {
      assert (ps + [p])[1..] == [p];
    } else {
      assert (ps + [p])[1..] == ps[1..] + [p];
      PrintAppended(ps[1..], p);
    }
  }

  lemma NamesArePlain(p: Param, requiredScope: string, status: int)
    requires p in ErrorParams(requiredScope, status)
    ensures '=' !in p.name
  {
  }

  /** Reading the header gives back exactly the parameters, whatever the URL and the scope contain. */
  lemma ChallengeReadsBack(resourceMetadataURL: string, requiredScope: string, status: int)
    ensures ParseParams(PrintParams(ChallengeParams(resourceMetadataURL, requiredScope, status))) ==
            Some(ChallengeParams(resourceMetadataURL, requiredScope, status))
  {
    hide ParseParams, PrintParams, ErrorParams;
    assert forall p :: p in ResourceParams(resourceMetadataURL) ==> '=' !in p.name;
    forall p | p in ErrorParams(requiredScope, status)
      ensures '=' !in p.name
    {
      NamesArePlain(p, requiredScope, status);
    }
    ParamsParseBack(ChallengeParams(resourceMetadataURL, requiredScope, status));
  }

  /** The value that a reader finds for a name. */
  function ValueOf(ps: seq<Param>, name: string): Option<string> {
    if ps == [] then None
    else if ps[0].name == name then Some(ps[0].value)
    else ValueOf(ps[1..], name)
  }

  lemma {:induction false} ValueOfAppend(a: seq<Param>, b: seq<Param>, name: string)
    ensures ValueOf(a + b, name) == if ValueOf(a, name).Some? then ValueOf(a, name) else ValueOf(b, name)
  {
    if a == [] {
      assert a + b == b;
    } else {
      assert (a + b)[1..] == a[1..] + b;
      ValueOfAppend(a[1..], b, name);
    }
  }

  lemma ValueOfFirst(p: Param, rest: seq<Param>, name: string)
    ensures ValueOf([p] + rest, name) == if p.name == name then Some(p.value) else ValueOf(rest, name)
  {
    assert ([p] + rest)[1..] == rest;
  }

  /** What a reader finds in a list of up to three. */
  lemma ValueOfThree(p: Param, q: Param, r: Param, name: string)
    ensures ValueOf([p], name) == if p.name == name then Some(p.value) else None
    ensures ValueOf([p, q], name) == if p.name == name then Some(p.value) else if q.name == name then Some(q.value) else None
    ensures ValueOf([p, q, r], name) ==
            if p.name == name then Some(p.value) else if q.name == name then Some(q.value)
            else if r.name == name then Some(r.value) else None
  {
    assert [p] == [p] + [] && [p, q] == [p] + ([q] + []) && [p, q, r] == [p] + ([q] + ([r] + []));
    ValueOfFirst(r, [], name);
    ValueOfFirst(q, [], name);
    ValueOfFirst(q, [r] + [], name);
    ValueOfFirst(p, [], name);
    ValueOfFirst(p, [q] + [], name);
    ValueOfFirst(p, [q] + ([r] + []), name);
    hide ValueOf;
  }

  lemma ResourceSays(url: string, name: string)
    ensures ValueOf(ResourceParams(url), name) ==
            if name == "realm" then Some("OAuth")
            else if name == "resource_metadata" && url != "" then Some(url) else None
  {
    hide ValueOf;
    var realm, metadata := Param("realm", "OAuth"), Param("resource_metadata", url);
    ValueOfThree(realm, metadata, realm, name);
    assert ResourceParams(url) == if url == "" then [realm] else [realm, metadata];
  }

  /** What the error part says for a name. */
  function ErrorValue(scope: string, status: int, name: string): Option<string> {
    if status != 403 then
      if name == "error" then Some("invalid_token")
      else if name == "error_description" then Some("Missing or invalid access token") else None
    else if scope == "" then None
    else if name == "error" then Some("insufficient_scope")
    else if name == "error_description" then Some("Requires scope: " + scope)
    else if name == "scope" then Some(scope) else None
  }

  lemma ErrorSays(scope: string, status: int, name: string)
    ensures ValueOf(ErrorParams(scope, status), name) == ErrorValue(scope, status, name)
  {
    var ps := ErrorParams(scope, status);
    if status != 403 {
      ValueOfThree(ps[0], ps[1], ps[1], name);
    } else if scope != "" {
      ValueOfThree(ps[0], ps[1], ps[2], name);
    }
    hide ValueOf;
  }

  /**
   What a reader of the header learns: a missing or bad token is "invalid_token"; with 403 the scope
   that is missing is named, if there is one; the metadata URL is there if it is configured.
   */
  lemma ChallengeSays(url: string, scope: string, status: int)
    ensures var read := ParseParams(PrintParams(ChallengeParams(url, scope, status)));
            && read.Some?
            && ValueOf(read.value, "realm") == Some("OAuth")
            && ValueOf(read.value, "resource_metadata") == (if url == "" then None else Some(url))
            && ValueOf(read.value, "error") ==
               (if status != 403 then Some("invalid_token") else if scope != "" then Some("insufficient_scope") else None)
            && ValueOf(read.value, "error_description") ==
               (if status != 403 then Some("Missing or invalid access token")
                else if scope != "" then Some("Requires scope: " + scope) else None)
            && ValueOf(read.value, "scope") == (if status == 403 && scope != "" then Some(scope) else None)
  {
    hide ParseParams, PrintParams, ValueOf, ResourceParams, ErrorParams;
    ChallengeReadsBack(url, scope, status);
    NameSays(url, scope, status, "realm");
    NameSays(url, scope, status, "resource_metadata");
    NameSays(url, scope, status, "error");
    NameSays(url, scope, status, "error_description");
    NameSays(url, scope, status, "scope");
  }

  lemma NameSays(url: string, scope: string, status: int, name: string)
    ensures ValueOf(ChallengeParams(url, scope, status), name) ==
            if name == "realm" then Some("OAuth")
            else if name == "resource_metadata" && url != "" then Some(url)
            else ErrorValue(scope, status, name)
  {
    hide ValueOf, ResourceParams, ErrorParams, ErrorValue;
    ResourceSays(url, name);
    ErrorSays(scope, status, name);
    ValueOfAppend(ResourceParams(url), ErrorParams(scope, status), name);
  }
}
