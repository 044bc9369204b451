/**
 Approval tokens (oauth/consent/default_store.go): printed, parsed, bound to the authorize
 parameters, and usable once.
 */
module ApprovalStore {
  import opened Wrappers
  import opened Text
  import Form = ConsentForm

  /** Nanoseconds since the Unix epoch. */
  type Time = int

  const SECOND: int := 1_000_000_000
  const TTL: int := 300 * SECOND

  /** Time.Unix: whole seconds, rounded down. */
  function Unix(t: Time): int {
    t / SECOND
  }

  /** base64 and the keyed hash, about which only `Sound` is assumed. */
  datatype Crypto = Crypto(form: Form.Codec, encode: string -> string, decode: string -> Option<string>, sign: string -> string)

  /** Decoding undoes encoding; nothing says that encoding undoes decoding. */
  ghost predicate Sound(c: Crypto) {
    && Form.Sound(c.form)
    && (forall x :: c.decode(c.encode(x)) == Some(x))
    && (forall x :: x != "" ==> c.encode(x) != "")
    && (forall x :: '|' !in c.sign(x))
  }

  /** The issued tokens that are still unused, with the second at which they expire. */
  type Issued = map<string, int>

  /** The expiry fits the 64-bit integer that is printed. */
  predicate InRange(now: Time) {
    IsInt64(Unix(now + TTL))
  }

  function Payload(c: Crypto, id: string, exp: int, params: Form.Values, nonce: string): string {
    id + "|" + FormatInt(exp) + "|" + Form.ParamsDigest(c.form, params) + "|" + nonce
  }

  function Token(c: Crypto, id: string, exp: int, params: Form.Values, nonce: string): string {
    var payload := Payload(c, id, exp, params, nonce);
    c.encode(payload + "|" + c.sign(payload))
  }

  /** What a token says, if it is well formed and correctly signed. */
  datatype Claims = Claims(id: string, exp: int, digest: string)

  function ParseToken(c: Crypto, token: string): Option<Claims> {
    if token == "" then None
    else match c.decode(token)
      case None => None
      case Some(text) =>
        var parts := Split(text, '|');
        if |parts| != 4 && |parts| != 5 then None
        else
          var payload := Join(parts[..|parts| - 1], "|");
          if parts[|parts| - 1] != c.sign(payload) then None
          else match ParseInt(parts[1])
            case None => None
            case Some(exp) => Some(Claims(parts[0], exp, parts[2]))
  }

  datatype Consumed = Consumed(issued: Issued, subject: Option<string>)

  /** Consume, with the clock samples it takes before and inside its critical section. */
  function Consume(c: Crypto, issued: Issued, token: string, params: Form.Values, t1: Time, t2: Time): Consumed {
    match ParseToken(c, token)
    case None => Consumed(issued, None)
    case Some(claims) =>
      if Unix(t1) > claims.exp then Consumed(issued - {token}, None)
      else if claims.digest != Form.ParamsDigest(c.form, params) then Consumed(issued, None)
      else if token !in issued then Consumed(issued, None)
      else Consumed(issued - {token}, if t2 < issued[token] * SECOND then Some(claims.id) else None)
  }

  class DefaultApprovalStore {
    var issued: Issued

    constructor ()
      ensures issued == map[]
    {
      issued := map[];
    }

    /** `nonce` is the fresh random text. */
    method Issue(c: Crypto, id: string, params: Form.Values, nonce: string, now: Time) returns (token: string)
      modifies this
      ensures token == Token(c, id, Unix(now + TTL), params, nonce)
      ensures issued == old(issued)[token := Unix(now + TTL)]
    {
      var expiresAt := Unix(now + TTL);
      var payload := id + "|" + FormatInt(expiresAt) + "|" + Form.ParamsDigest(c.form, params) + "|" + nonce;
      var signature := c.sign(payload);
      token := c.encode(payload + "|" + signature);
      issued := issued[token := expiresAt];
    }

    method ConsumeToken(c: Crypto, token: string, params: Form.Values, t1: Time, t2: Time) returns (subject: Option<string>)
      modifies this
      ensures Consumed(issued, subject) == Consume(c, old(issued), token, params, t1, t2)
    {
      if token == "" {
        return None;
      }
      var decoded := c.decode(token);
      if decoded.None? {
        return None;
      }
      var parts := Split(decoded.value, '|');
      if |parts| != 4 && |parts| != 5 {
        return None;
      }
      var signature := parts[|parts| - 1];
      var payload := Join(parts[..|parts| - 1], "|");
      if signature != c.sign(payload) {
        return None;
      }
      var expiresAt := ParseInt(parts[1]);
      if expiresAt.None? {
        return None;
      }
      if Unix(t1) > expiresAt.value {
        DeleteStored(token);
        return None;
      }
      if parts[2] != Form.ParamsDigest(c.form, params) {
        return None;
      }
      var ok := ConsumeStored(token, t2);
      if !ok {
        return None;
      }
      return Some(parts[0]);
    }

    method ConsumeStored(token: string, now: Time) returns (ok: bool)
      modifies this
      ensures issued == old(issued) - {token}
      ensures ok <==> token in old(issued) && now < old(issued)[token] * SECOND
    {
      if token !in issued {
        return false;
      }
      var expiresAt := issued[token];
      issued := issued - {token};
      return now < expiresAt * SECOND;
    }

    method DeleteStored(token: string)
      modifies this
      ensures issued == old(issued) - {token}
    {
      issued := issued - {token};
    }
  }

  // ---------------------------------------------------------------------------------------------
  // The text of a token
  // ---------------------------------------------------------------------------------------------

  /** The decoded text splits into the parts of the ID, then expiry, digest, nonce and signature. */
  lemma TokenParts(c: Crypto, id: string, exp: int, params: Form.Values, nonce: string)
    requires Sound(c) && '|' !in nonce
    ensures var payload := Payload(c, id, exp, params, nonce);
            Split(payload + "|" + c.sign(payload), '|') ==
            Split(id, '|') + [FormatInt(exp), Form.ParamsDigest(c.form, params), nonce, c.sign(payload)]
  {
    var payload, d := Payload(c, id, exp, params, nonce), Form.ParamsDigest(c.form, params);
    FormatIntHasNo(exp, '|');
    var a := id + "|" + FormatInt(exp);
    var b := a + "|" + d;
    SplitConcat(payload, '|', c.sign(payload));
    SplitConcat(b, '|', nonce);
    SplitConcat(a, '|', d);
    SplitConcat(id, '|', FormatInt(exp));
    SplitOne(c.sign(payload), '|');
    SplitOne(nonce, '|');
    SplitOne(d, '|');
    SplitOne(FormatInt(exp), '|');
  }

  /** A token reads back as its claims when its ID has no '|' (and its expiry is a 64-bit integer), else as nothing. */
  lemma TokenRoundTrip(c: Crypto, id: string, exp: int, params: Form.Values, nonce: string)
    requires Sound(c) && '|' !in nonce
    ensures ParseToken(c, Token(c, id, exp, params, nonce)) ==
            if '|' in id || !IsInt64(exp) then None else Some(Claims(id, exp, Form.ParamsDigest(c.form, params)))
  {
    var payload, d := Payload(c, id, exp, params, nonce), Form.ParamsDigest(c.form, params);
    TokenParts(c, id, exp, params, nonce);
    SplitOne(id, '|');
    var parts := Split(payload + "|" + c.sign(payload), '|');
    if '|' !in id {
      assert parts == [id, FormatInt(exp), d, nonce, c.sign(payload)];
      ParseFormatInt(exp);
      assert Join(parts[..4], "|") == payload by {
        assert parts[..4] == [id, FormatInt(exp), d, nonce];
        JoinFour(id, FormatInt(exp), d, nonce);
      }
    }
  }

  /** What a payload says. */
  function PayloadClaims(payload: string): Option<Claims> {
    var parts := Split(payload, '|');
    if |parts| != 3 && |parts| != 4 then None
    else match ParseInt(parts[1])
      case None => None
      case Some(exp) => Some(Claims(parts[0], exp, parts[2]))
  }

  /** A text is understood exactly if it encodes a payload with its own signature, and as that payload. */
  lemma UnderstoodIffSigned(c: Crypto, token: string, claims: Claims)
    requires Sound(c)
    ensures ParseToken(c, token) == Some(claims) <==>
            token != "" && exists payload :: c.decode(token) == Some(payload + "|" + c.sign(payload)) && PayloadClaims(payload) == Some(claims)
  {
    if ParseToken(c, token) == Some(claims) {
      SignedPayload(c, token);
    }
    forall payload | token != "" && c.decode(token) == Some(payload + "|" + c.sign(payload))
      ensures ParseToken(c, token) == PayloadClaims(payload)
    {
      ParseSigned(c, token, payload);
    }
  }

  lemma SignedPayload(c: Crypto, token: string)
    requires ParseToken(c, token).Some?
    ensures exists payload :: c.decode(token) == Some(payload + "|" + c.sign(payload))
  {
    var text := c.decode(token).value;
    var parts := Split(text, '|');
    var payload := Join(parts[..|parts| - 1], "|");
    JoinSplit(text, '|');
    JoinLast(parts, "|");
    assert text == payload + "|" + c.sign(payload);
  }

  lemma ParseSigned(c: Crypto, token: string, payload: string)
    requires Sound(c) && token != "" && c.decode(token) == Some(payload + "|" + c.sign(payload))
    ensures ParseToken(c, token) == PayloadClaims(payload)
  {
    var inner, parts := Split(payload, '|'), Split(payload + "|" + c.sign(payload), '|');
    assert '|' !in c.sign(payload);
    hide Sound;
    SplitConcat(payload, '|', c.sign(payload));
    SplitOne(c.sign(payload), '|');
    assert parts == inner + [c.sign(payload)] && parts[..|parts| - 1] == inner;
    JoinSplit(payload, '|');
  }

  lemma JoinFour(a: string, b: string, d: string, e: string)
    ensures Join([a, b, d, e], "|") == a + "|" + b + "|" + d + "|" + e
  {
    var l := [a, b, d, e];
    assert l[1..] == [b, d, e] && [b, d, e][1..] == [d, e] && [d, e][1..] == [e];
    assert Join([d, e], "|") == d + "|" + Join([e], "|") == d + "|" + e;
    assert Join([b, d, e], "|") == b + "|" + Join([d, e], "|");
    assert Join(l, "|") == a + "|" + Join([b, d, e], "|");
  }

  /** Different nonces give different tokens, whatever else they carry. */
  lemma TokensDiffer(c: Crypto, id1: string, exp1: int, p1: Form.Values, n1: string,
                     id2: string, exp2: int, p2: Form.Values, n2: string)
    requires Sound(c) && '|' !in n1 && '|' !in n2 && n1 != n2
    ensures Token(c, id1, exp1, p1, n1) != Token(c, id2, exp2, p2, n2)
  {
    TokenParts(c, id1, exp1, p1, n1);
    TokenParts(c, id2, exp2, p2, n2);
    var a, b := Payload(c, id1, exp1, p1, n1), Payload(c, id2, exp2, p2, n2);
    var x, y := a + "|" + c.sign(a), b + "|" + c.sign(b);
    var s, t := Split(x, '|'), Split(y, '|');
    assert s[|s| - 2] == n1 && t[|t| - 2] == n2;
    assert c.decode(c.encode(x)) == Some(x) && c.decode(c.encode(y)) == Some(y);
  }

  // ---------------------------------------------------------------------------------------------
  // Main results about one token
  // ---------------------------------------------------------------------------------------------

  /** Only a text that is in `issued` can succeed, even if it decodes to the same payload as one that is. */
  lemma OnlyIssuedSucceeds(c: Crypto, issued: Issued, token: string, params: Form.Values, t1: Time, t2: Time)
    requires Consume(c, issued, token, params, t1, t2).subject.Some?
    ensures token in issued && token !in Consume(c, issued, token, params, t1, t2).issued
  {
  }

  /** A text that is not in `issued` fails and changes nothing, whatever it says. */
  lemma UnissuedTextFails(c: Crypto, issued: Issued, other: string, params: Form.Values, t1: Time, t2: Time)
    requires other !in issued
    ensures Consume(c, issued, other, params, t1, t2) == Consumed(issued, None)
  {
  }

  /** A codec that reads any first character, as base64 ignores the unused bits of its last one. */
  function LaxCrypto(): Crypto {
    var plain := (x: string) => Unary(x);
    Crypto(Form.Codec(plain, plain), (x: string) => "e" + x, (x: string) => if x == "" then None else Some(x[1..]),
           (x: string) => "")
  }

  /** Such texts exist under a sound codec: for every token that can be used, another text says the same and fails. */
  lemma EquivalentTextsExist(rest: Issued, id: string, exp: int, params: Form.Values, nonce: string, t1: Time, t2: Time)
    requires '|' !in id && '|' !in nonce && IsInt64(exp) && t1 <= t2 < exp * SECOND
    ensures var c := LaxCrypto();
            var token := Token(c, id, exp, params, nonce);
            && Sound(c) && token != ""
            && var other := "f" + token[1..];
               var issued := (rest - {other})[token := exp];
               && other != token && ParseToken(c, other) == ParseToken(c, token)
               && Consume(c, issued, token, params, t1, t2).subject == Some(id)
               && Consume(c, issued, other, params, t1, t2) == Consumed(issued, None)
  {
    LaxIsSound();
    var c := LaxCrypto();
    var token := Token(c, id, exp, params, nonce);
    var other := "f" + token[1..];
    assert token[0] == 'e' && other[0] == 'f';
    assert other[1..] == token[1..];
    assert c.decode(other) == c.decode(token);
    TokenRoundTrip(c, id, exp, params, nonce);
    var issued := (rest - {other})[token := exp];
    LaterSampleDecides(c, issued, id, params, nonce, exp, t1, t2);
    UnissuedTextFails(c, issued, other, params, t1, t2);
  }

  lemma LaxIsSound()
    ensures Sound(LaxCrypto())
  {
    var c := LaxCrypto();
    UnaryIsSound(c.form);
    forall x
      ensures c.decode(c.encode(x)) == Some(x)
    {
      assert ("e" + x)[1..] == x;
    }
  }

  /**
   An unused token for an ID without '|', presented with the parameters it was issued for and one
   clock sample, is accepted exactly until its whole-second expiry; it is gone afterwards.
   */
  lemma AcceptedUntilExpiry(c: Crypto, issued: Issued, id: string, params: Form.Values, nonce: string,
                            issuedAt: Time, presented: Form.Values, now: Time)
    requires Sound(c) && '|' !in nonce && '|' !in id && InRange(issuedAt)
    requires Form.Clean(presented) == Form.Clean(params)
    requires var token := Token(c, id, Unix(issuedAt + TTL), params, nonce);
             token in issued && issued[token] == Unix(issuedAt + TTL)
    ensures var token := Token(c, id, Unix(issuedAt + TTL), params, nonce);
            var r := Consume(c, issued, token, presented, now, now);
            && r.issued == issued - {token}
            && r.subject == if now < Unix(issuedAt + TTL) * SECOND then Some(id) else None
  {
    TokenRoundTrip(c, id, Unix(issuedAt + TTL), params, nonce);
    Form.DigestIdentifiesCleaned(c.form, params, presented);
  }

  /** So a token lives for more than 299 and at most 300 seconds. */
  lemma LifetimeBounds(issuedAt: Time)
    ensures 299_000_000_000 < Unix(issuedAt + TTL) * SECOND - issuedAt <= 300_000_000_000
    ensures (Unix(issuedAt + TTL) * SECOND) % 1_000_000_000 == 0
  {
  }

  /** With two clock samples, the later one decides. */
  lemma LaterSampleDecides(c: Crypto, issued: Issued, id: string, params: Form.Values, nonce: string,
                           exp: int, t1: Time, t2: Time)
    requires Sound(c) && '|' !in nonce && '|' !in id && IsInt64(exp) && t1 <= t2
    requires var token := Token(c, id, exp, params, nonce); token in issued && issued[token] == exp
    ensures Consume(c, issued, Token(c, id, exp, params, nonce), params, t1, t2).subject ==
            if t2 < exp * SECOND then Some(id) else None
  {
    TokenRoundTrip(c, id, exp, params, nonce);
  }

  /** Before it expires, presenting a token with other parameters changes nothing. */
  lemma MismatchLeavesStore(c: Crypto, issued: Issued, id: string, exp: int, params: Form.Values, nonce: string,
                            presented: Form.Values, t1: Time, t2: Time)
    requires Sound(c) && '|' !in nonce && '|' !in id && IsInt64(exp)
    requires Form.Clean(presented) != Form.Clean(params) && Unix(t1) <= exp
    ensures Consume(c, issued, Token(c, id, exp, params, nonce), presented, t1, t2) == Consumed(issued, None)
  {
    TokenRoundTrip(c, id, exp, params, nonce);
    Form.DigestIdentifiesCleaned(c.form, params, presented);
  }

  /** An expired token is removed, whatever parameters come with it. */
  lemma ExpiredIsRemoved(c: Crypto, issued: Issued, id: string, exp: int, params: Form.Values, nonce: string,
                         presented: Form.Values, t1: Time, t2: Time)
    requires Sound(c) && '|' !in nonce && '|' !in id && IsInt64(exp) && t1 >= (exp + 1) * SECOND
    ensures Consume(c, issued, Token(c, id, exp, params, nonce), presented, t1, t2) ==
            Consumed(issued - {Token(c, id, exp, params, nonce)}, None)
  {
    TokenRoundTrip(c, id, exp, params, nonce);
  }

  /** A token for an ID with '|' is rejected at every time, with every parameters, and stays stored. */
  lemma BarInIdIsRejected(c: Crypto, issued: Issued, id: string, exp: int, params: Form.Values, nonce: string,
                          presented: Form.Values, t1: Time, t2: Time)
    requires Sound(c) && '|' !in nonce && '|' in id
    ensures Consume(c, issued, Token(c, id, exp, params, nonce), presented, t1, t2) == Consumed(issued, None)
  {
    TokenRoundTrip(c, id, exp, params, nonce);
  }

  lemma UnaryIsSound(form: Form.Codec)
    requires form.escape == form.hash && forall a :: form.escape(a) == Unary(a)
    ensures Form.Sound(form)
  {
    forall a
      ensures '&' !in form.escape(a) && '=' !in form.escape(a) && '|' !in form.hash(a)
    {
      UnaryAlphabet(a);
    }
    forall a, b | Unary(a) == Unary(b)
      ensures a == b
    {
      UnaryInjective(a, b);
    }
  }

  /** The assumptions can be met. */
  lemma SoundIsPossible()
    ensures exists c :: Sound(c)
  {
    LaxIsSound();
  }

  /** One encoding with these properties: each character as that many 'x' and a 'y'. */
  function Unary(s: string): string {
    if s == [] then [] else seq(s[0] as int, i => 'x') + "y" + Unary(s[1..])
  }

  lemma {:induction false} UnaryAlphabet(s: string)
    ensures forall c :: c in Unary(s) ==> c == 'x' || c == 'y'
  {
    if s != [] {
      UnaryAlphabet(s[1..]);
    }
  }

  lemma {:induction false} UnaryInjective(a: string, b: string)
    requires Unary(a) == Unary(b)
    ensures a == b
  {
    if a != [] && b != [] {
      var m, n := a[0] as int, b[0] as int;
      assert Unary(a)[m] == 'y' && Unary(b)[n] == 'y';
      assert forall i :: 0 <= i < m ==> Unary(a)[i] == 'x';
      assert forall i :: 0 <= i < n ==> Unary(b)[i] == 'x';
      assert m == n;
      assert Unary(a[1..]) == Unary(a)[m + 1..] && Unary(b[1..]) == Unary(b)[n + 1..];
      UnaryInjective(a[1..], b[1..]);
      assert a == [a[0]] + a[1..] && b == [b[0]] + b[1..];
    }
  }
}
