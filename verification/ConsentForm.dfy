/**
 The authorize parameters as they travel through the consent form (oauth/consent/params.go,
 oauth/consent/redirect.go, cloneAndSet in oauth/consent/handler.go).
 */
module ConsentForm {
  import opened Text

  /** url.Values */
  type Values = map<string, seq<string>>

  datatype Pair = Pair(name: string, value: string)

  predicate Stripped(name: string) {
    name in {"username", "password", "action", "approval_token", "challenge_id", "challenge_response"}
  }

  /** oauthAuthorizeValues: credential fields go, and a name with no value leaves nothing behind. */
  function Clean(values: Values): Values {
    map k | k in values && !Stripped(k) && values[k] != [] :: values[k]
  }

  /** Cleaning is idempotent and never leaves an empty value list. */
  lemma CleanIsStable(values: Values)
    ensures Clean(Clean(values)) == Clean(values)
    ensures forall k :: k in Clean(values) ==> Clean(values)[k] != [] && !Stripped(k)
  {
  }

  /** Every name but the six of the form itself keeps all its values. */
  lemma CleanKeepsTheRest(values: Values, k: string)
    ensures k in Clean(values) <==>
            k in values && values[k] != [] && k != "username" && k != "password" && k != "action" &&
            k != "approval_token" && k != "challenge_id" && k != "challenge_response"
    ensures k in Clean(values) ==> Clean(values)[k] == values[k]
  {
  }

  /** So a login form loses its credentials and keeps its request. */
  lemma CredentialsGoRequestStays(values: Values)
    ensures "password" !in Clean(values) && "username" !in Clean(values) && "approval_token" !in Clean(values)
    ensures "scope" in values && values["scope"] != [] ==> "scope" in Clean(values) && Clean(values)["scope"] == values["scope"]
    ensures "redirect_uri" in values && values["redirect_uri"] != [] ==>
              "redirect_uri" in Clean(values) && Clean(values)["redirect_uri"] == values["redirect_uri"]
  {
    hide Clean;
    CleanKeepsTheRest(values, "password");
    CleanKeepsTheRest(values, "username");
    CleanKeepsTheRest(values, "approval_token");
    CleanKeepsTheRest(values, "scope");
    CleanKeepsTheRest(values, "redirect_uri");
  }

  /** Values.Add */
  function Add(values: Values, k: string, v: string): Values {
    values[k := (if k in values then values[k] else []) + [v]]
  }

  method OAuthAuthorizeValues(values: Values) returns (clean: Values)
    ensures clean == Clean(values)
  {
    clean := map[];
    var todo := values.Keys;
    while todo != {}
      invariant todo <= values.Keys
      invariant clean == Clean(values - todo)
      decreases |todo|
    {
      var key :| key in todo;
      var before := clean;
      if !Stripped(key) {
        var vals := values[key];
        for i := 0 to |vals|
          invariant clean == if i == 0 then before else before[key := vals[..i]]
        {
          clean := Add(clean, key, vals[i]);
          assert vals[..i + 1] == vals[..i] + [vals[i]];
        }
        assert vals[..|vals|] == vals;
      }
      todo := todo - {key};
    }
    assert values - {} == values;
  }

  // Forms as lists of fields ---------------------------------------------------------------------

  /** One field for each value of one name. */
  function Tag(k: string, values: seq<string>): seq<Pair> {
    seq(|values|, i requires 0 <= i < |values| => Pair(k, values[i]))
  }

  /** HiddenInputs, with the names taken in the given order. */
  function Inputs(values: Values, order: seq<string>): seq<Pair>
    requires forall k :: k in order ==> k in values
  {
    if order == [] then [] else Tag(order[0], values[order[0]]) + Inputs(values, order[1..])
  }

  /** An order in which iterating over the map can visit its names. */
  ghost predicate Enumerates(order: seq<string>, values: Values) {
    && (forall k :: k in order <==> k in values)
    && (forall i, j :: 0 <= i < j < |order| ==> order[i] != order[j])
  }

  /** The posted fields, parsed back into a map. */
  function FromFields(fields: seq<Pair>): Values {
    if fields == [] then map[]
    else var last := fields[|fields| - 1]; Add(FromFields(fields[..|fields| - 1]), last.name, last.value)
  }

  function ValuesOf(fields: seq<Pair>, k: string): seq<string> {
    if fields == [] then []
    else
      ValuesOf(fields[..|fields| - 1], k) +
      if fields[|fields| - 1].name == k then [fields[|fields| - 1].value] else []
  }

  /** The fields that are not stripped, in order. */
  function Kept(fields: seq<Pair>): seq<Pair> {
    if fields == [] then []
    else
      Kept(fields[..|fields| - 1]) +
      if Stripped(fields[|fields| - 1].name) then [] else [fields[|fields| - 1]]
  }

  lemma {:induction false} FromFieldsMeans(fields: seq<Pair>, k: string)
    ensures k in FromFields(fields) <==> ValuesOf(fields, k) != []
    ensures k in FromFields(fields) ==> FromFields(fields)[k] == ValuesOf(fields, k)
  {
    if fields != [] {
      FromFieldsMeans(fields[..|fields| - 1], k);
    }
  }

  lemma {:induction false} ValuesOfAppend(a: seq<Pair>, b: seq<Pair>, k: string)
    ensures ValuesOf(a + b, k) == ValuesOf(a, k) + ValuesOf(b, k)
    decreases |b|
  {
    if b == [] {
      assert a + b == a;
    } else {
      assert (a + b)[..|a + b| - 1] == a + b[..|b| - 1];
      ValuesOfAppend(a, b[..|b| - 1], k);
    }
  }

  lemma {:induction false} ValuesOfTag(h: string, values: seq<string>, k: string)
    ensures ValuesOf(Tag(h, values), k) == if k == h then values else []
  {
    if values != [] {
      var front := values[..|values| - 1];
      assert Tag(h, values)[..|values| - 1] == Tag(h, front);
      ValuesOfTag(h, front, k);
    }
  }

  lemma {:induction false} ValuesOfInputs(values: Values, order: seq<string>, k: string)
    requires forall j :: j in order ==> j in values
    requires forall i, j :: 0 <= i < j < |order| ==> order[i] != order[j]
    ensures ValuesOf(Inputs(values, order), k) == if k in order then values[k] else []
  {
    if order != [] {
      ValuesOfInputs(values, order[1..], k);
      ValuesOfTag(order[0], values[order[0]], k);
      ValuesOfAppend(Tag(order[0], values[order[0]]), Inputs(values, order[1..]), k);
      assert order == [order[0]] + order[1..];
    }
  }

  lemma {:induction false} ValuesOfKept(fields: seq<Pair>, k: string)
    requires !Stripped(k)
    ensures ValuesOf(Kept(fields), k) == ValuesOf(fields, k)
  {
    if fields != [] {
      ValuesOfKept(fields[..|fields| - 1], k);
      var last := fields[|fields| - 1];
      var tail := if Stripped(last.name) then [] else [last];
      ValuesOfAppend(Kept(fields[..|fields| - 1]), tail, k);
      assert tail != [] ==> tail[..|tail| - 1] == [];
    }
  }

  /**
   Whatever order the names are rendered in, and whatever stripped fields the browser mixes in,
   the posted form has the same cleaned parameters as the values that were rendered.
   */
  lemma FormRoundTrip(values: Values, order: seq<string>, posted: seq<Pair>)
    requires Enumerates(order, values)
    requires Kept(posted) == Kept(Inputs(values, order))
    ensures Clean(FromFields(posted)) == Clean(values)
  {
    forall k | !Stripped(k)
      ensures ValuesOf(posted, k) == if k in values then values[k] else []
    {
      ValuesOfKept(posted, k);
      ValuesOfKept(Inputs(values, order), k);
      ValuesOfInputs(values, order, k);
    }
    forall k
      ensures k in FromFields(posted) <==> ValuesOf(posted, k) != []
      ensures k in FromFields(posted) ==> FromFields(posted)[k] == ValuesOf(posted, k)
    {
      FromFieldsMeans(posted, k);
    }
  }

  /** Rendering without any extra field loses at most names that had no value. */
  lemma FieldsRoundTrip(values: Values, order: seq<string>)
    requires Enumerates(order, values) && forall k :: k in values ==> values[k] != []
    ensures FromFields(Inputs(values, order)) == values
  {
    forall k
      ensures k in FromFields(Inputs(values, order)) <==> k in values
      ensures k in values ==> FromFields(Inputs(values, order))[k] == values[k]
    {
      FromFieldsMeans(Inputs(values, order), k);
      ValuesOfInputs(values, order, k);
    }
  }

  method HiddenInputs(values: Values) returns (out: seq<Pair>)
    ensures exists order :: Enumerates(order, values) && out == Inputs(values, order)
    ensures Clean(FromFields(out)) == Clean(values)
  {
    out := [];
    ghost var order := [];
    var todo := values.Keys;
    while todo != {}
      invariant todo <= values.Keys
      invariant Enumerates(order, values - todo)
      invariant out == Inputs(values, order)
      decreases |todo|
    {
      var key :| key in todo;
      var vals := values[key];
      ghost var before := out;
      for i := 0 to |vals|
        invariant out == before + Tag(key, vals[..i])
      {
        out := out + [Pair(key, vals[i])];
        assert Tag(key, vals[..i + 1]) == Tag(key, vals[..i]) + [Pair(key, vals[i])];
      }
      assert vals[..|vals|] == vals;
      InputsAppend(values, order, key);
      assert key !in order;
      order := order + [key];
      todo := todo - {key};
    }
    FormRoundTrip(values, order, out);
  }

  lemma {:induction false} InputsAppend(values: Values, order: seq<string>, k: string)
    requires k in values && forall j :: j in order ==> j in values
    ensures Inputs(values, order + [k]) == Inputs(values, order) + Tag(k, values[k])
  {
    if order == [] {
      assert order + [k] == [k] && Inputs(values, [k][1..]) == [];
    } else {
      assert (order + [k])[1..] == order[1..] + [k];
      InputsAppend(values, order[1..], k);
    }
  }

  /** cloneAndSet replaces one name; a stripped one does not show after cleaning. */
  method CloneAndSet(values: Values, key: string, value: string) returns (out: Values)
    ensures out == values[key := [value]]
    ensures Stripped(key) ==> Clean(out) == Clean(values)
  {
    out := map[];
    var todo := values.Keys;
    while todo != {}
      invariant todo <= values.Keys
      invariant out == values - todo
      decreases |todo|
    {
      var k :| k in todo;
      out := out[k := values[k]];
      todo := todo - {k};
    }
    assert values - {} == values;
    out := out[key := [value]];
  }

  // The digest -----------------------------------------------------------------------------------

  /** url.QueryEscape and the hash, about which only this is assumed. */
  datatype Codec = Codec(escape: string -> string, hash: string -> string)

  ghost predicate Sound(c: Codec) {
    && (forall a, b :: c.escape(a) == c.escape(b) ==> a == b)
    && (forall a :: '&' !in c.escape(a) && '=' !in c.escape(a))
    && (forall a, b :: c.hash(a) == c.hash(b) ==> a == b)
    && (forall a :: '|' !in c.hash(a))
  }

  function EncodePair(c: Codec, p: Pair): string {
    c.escape(p.name) + ['='] + c.escape(p.value)
  }

  function EncodePairs(c: Codec, fields: seq<Pair>): seq<string> {
    seq(|fields|, i requires 0 <= i < |fields| => EncodePair(c, fields[i]))
  }

  /** Values.Encode: names in increasing order. */
  function Encode(c: Codec, values: Values): string {
    Join(EncodePairs(c, Inputs(values, Sorted(values.Keys))), "&")
  }

  function ParamsDigest(c: Codec, values: Values): string {
    c.hash(Encode(c, Clean(values)))
  }

  lemma EncodePairInjective(c: Codec, p: Pair, q: Pair)
    requires Sound(c) && EncodePair(c, p) == EncodePair(c, q)
    ensures p == q
  {
    SplitConcat(c.escape(p.name), '=', c.escape(p.value));
    SplitConcat(c.escape(q.name), '=', c.escape(q.value));
    SplitOne(c.escape(p.name), '=');
    SplitOne(c.escape(p.value), '=');
    SplitOne(c.escape(q.name), '=');
    SplitOne(c.escape(q.value), '=');
    var parts := Split(EncodePair(c, p), '=');
    assert parts[0] == c.escape(p.name) && parts[0] == c.escape(q.name);
    assert parts[1] == c.escape(p.value) && parts[1] == c.escape(q.value);
  }

  lemma {:induction false} JoinIsEmptyOnlyFor(c: Codec, fields: seq<Pair>)
    ensures Join(EncodePairs(c, fields), "&") == [] <==> fields == []
  {
  }

  lemma EncodeFieldsInjective(c: Codec, a: seq<Pair>, b: seq<Pair>)
    requires Sound(c) && Join(EncodePairs(c, a), "&") == Join(EncodePairs(c, b), "&")
    ensures a == b
  {
    JoinIsEmptyOnlyFor(c, a);
    JoinIsEmptyOnlyFor(c, b);
    if a != [] {
      SplitJoin(EncodePairs(c, a), '&');
      SplitJoin(EncodePairs(c, b), '&');
      assert EncodePairs(c, a) == EncodePairs(c, b);
      assert |a| == |EncodePairs(c, a)| && |b| == |EncodePairs(c, b)|;
      forall i | 0 <= i < |a|
        ensures a[i] == b[i]
      {
        assert EncodePairs(c, a)[i] == EncodePairs(c, b)[i];
        EncodePairInjective(c, a[i], b[i]);
      }
    }
  }

  lemma SortedEnumerates(values: Values)
    ensures Enumerates(Sorted(values.Keys), values)
  {
    var order := Sorted(values.Keys);
    forall i, j | 0 <= i < j < |order|
      ensures order[i] != order[j]
    {
      LessIsStrict(order[i], order[j]);
    }
  }

  /** Equal digests mean equal cleaned parameters, and conversely. */
  lemma DigestIdentifiesCleaned(c: Codec, a: Values, b: Values)
    requires Sound(c)
    ensures ParamsDigest(c, a) == ParamsDigest(c, b) <==> Clean(a) == Clean(b)
  {
    if ParamsDigest(c, a) == ParamsDigest(c, b) {
      var x, y := Clean(a), Clean(b);
      SortedEnumerates(x);
      SortedEnumerates(y);
      EncodeFieldsInjective(c, Inputs(x, Sorted(x.Keys)), Inputs(y, Sorted(y.Keys)));
      FieldsRoundTrip(x, Sorted(x.Keys));
      FieldsRoundTrip(y, Sorted(y.Keys));
    }
  }

  /** So the digest survives the trip through the form. */
  lemma DigestRoundTrip(c: Codec, values: Values, order: seq<string>, posted: seq<Pair>)
    requires Enumerates(order, values) && Kept(posted) == Kept(Inputs(values, order))
    ensures ParamsDigest(c, FromFields(posted)) == ParamsDigest(c, values)
  {
    FormRoundTrip(values, order, posted);
  }

  // Resource indicators --------------------------------------------------------------------------

  method NormalizeOAuthStringSlice(values: seq<string>) returns (out: seq<string>)
    ensures out == Distinct(Trimmed(values))
    ensures forall v :: v in out <==> v != "" && exists i :: 0 <= i < |values| && TrimSpace(values[i]) == v
    ensures forall i, j :: 0 <= i < j < |out| ==> out[i] != out[j]
  {
    out := [];
    var seen := {};
    for i := 0 to |values|
      invariant out == Distinct(Trimmed(values[..i]))
      invariant forall x :: x in seen <==> x in out
    {
      assert Trimmed(values[..i + 1])[..i] == Trimmed(values[..i]);
      var trimmed := TrimSpace(values[i]);
      if trimmed == "" {
        continue;
      }
      if trimmed in seen {
        continue;
      }
      seen := seen + {trimmed};
      out := out + [trimmed];
    }
    assert values[..|values|] == values;
    NormalizedMeans(values);
  }

  lemma NormalizedMeans(values: seq<string>)
    ensures var out := Distinct(Trimmed(values));
            && (forall v :: v in out <==> v != "" && exists i :: 0 <= i < |values| && TrimSpace(values[i]) == v)
            && (forall i, j :: 0 <= i < j < |out| ==> out[i] != out[j])
  {
    hide TrimSpace, Distinct;
    var all := Trimmed(values);
    assert forall i :: 0 <= i < |values| ==> all[i] == TrimSpace(values[i]);
    forall v
      ensures v in Distinct(all) <==> v != "" && exists i :: 0 <= i < |values| && TrimSpace(values[i]) == v
    {
      DistinctMembers(all, v);
    }
    forall i, j | 0 <= i < j < |Distinct(all)|
      ensures Distinct(all)[i] != Distinct(all)[j]
    {
      DistinctOnce(all, i, j);
    }
  }
}
