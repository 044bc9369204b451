/**
 Scope requests (oauth/register.go): an explicit scope string is accepted whole or rejected whole,
 and no scope string means the configured defaults.
 */
module Scopes {
  import opened Wrappers
  import opened Text

  datatype Scoped = Rejected(scope: string) | Accepted(scopes: seq<string>, printed: string)

  /** The first value that is neither blank nor allowed. */
  function FirstForbidden(values: seq<string>, allowed: set<string>): Option<string> {
    if values == [] then None
    else if values[0] != "" && values[0] !in allowed then Some(values[0])
    else FirstForbidden(values[1..], allowed)
  }

  function Explicit(scope: string, allowed: set<string>): Scoped {
    match FirstForbidden(Fields(scope), allowed)
    case Some(bad) => Rejected(bad)
    case None => Accepted(Fields(scope), Join(Fields(scope), " "))
  }

  function Defaults(defaultScopes: seq<string>, allowedScopes: seq<string>): seq<string> {
    Trimmed(if defaultScopes == [] then allowedScopes else defaultScopes)
  }

  function OfDefaults(values: seq<string>, allowed: set<string>): Scoped {
    match FirstForbidden(values, allowed)
    case Some(bad) => Rejected(bad)
    case None => Accepted(Distinct(values), Join(Distinct(values), " "))
  }

  function WithDefault(scope: string, defaultScopes: seq<string>, allowedScopes: seq<string>, allowed: set<string>): Scoped {
    if TrimSpace(scope) != "" then Explicit(scope, allowed)
    else
      OfDefaults(Defaults(defaultScopes, allowedScopes), allowed)
  }

  lemma {:induction false} FirstForbiddenMeans(values: seq<string>, allowed: set<string>)
    ensures FirstForbidden(values, allowed).None? <==> forall v :: v in values && v != "" ==> v in allowed
    ensures FirstForbidden(values, allowed).Some? ==>
              var bad := FirstForbidden(values, allowed).value; bad in values && bad != "" && bad !in allowed
  {
    if values != [] {
      FirstForbiddenMeans(values[1..], allowed);
      assert values == [values[0]] + values[1..];
    }
  }

  lemma {:induction false} FirstForbiddenAt(values: seq<string>, allowed: set<string>, i: nat)
    requires i < |values| && values[i] != "" && values[i] !in allowed
    requires forall j :: 0 <= j < i ==> values[j] == "" || values[j] in allowed
    ensures FirstForbidden(values, allowed) == Some(values[i])
  {
    if i > 0 {
      FirstForbiddenAt(values[1..], allowed, i - 1);
    }
  }

  method NormalizeScopes(scope: string, allowed: set<string>) returns (r: Scoped)
    ensures r == Explicit(scope, allowed)
  {
    var scopes := Fields(scope);
    FieldsAreWords(scope, []);
    for i := 0 to |scopes|
      invariant forall j :: 0 <= j < i ==> scopes[j] in allowed
    {
      if scopes[i] !in allowed {
        assert scopes[i] in scopes;
        FirstForbiddenAt(scopes, allowed, i);
        return Rejected(scopes[i]);
      }
    }
    FirstForbiddenMeans(scopes, allowed);
    return Accepted(scopes, Join(scopes, " "));
  }

  method NormalizeScopesWithDefault(scope: string, defaultScopes: seq<string>, allowedScopes: seq<string>, allowed: set<string>)
    returns (r: Scoped)
    ensures r == WithDefault(scope, defaultScopes, allowedScopes, allowed)
  {
    if TrimSpace(scope) != "" {
      r := NormalizeScopes(scope, allowed);
      return;
    }
    r := NormalizeDefaults(if defaultScopes == [] then allowedScopes else defaultScopes, allowed);
  }

  method NormalizeDefaults(defaults: seq<string>, allowed: set<string>) returns (r: Scoped)
    ensures r == OfDefaults(Trimmed(defaults), allowed)
  {
    hide TrimSpace, Join, FirstForbidden;
    ghost var values := Trimmed(defaults);
    var scopes, seen := [], {};
    for i := 0 to |defaults|
      invariant scopes == Distinct(values[..i])
      invariant forall x :: x in seen <==> x in scopes
      invariant forall j :: 0 <= j < i ==> values[j] == "" || values[j] in allowed
    {
      assert values[..i + 1][..i] == values[..i];
      var one := TrimSpace(defaults[i]);
      assert one == values[i];
      if one == "" {
        continue;
      }
      if one !in allowed {
        FirstForbiddenAt(values, allowed, i);
        return Rejected(one);
      }
      if one in seen {
        continue;
      }
      seen := seen + {one};
      scopes := scopes + [one];
    }
    assert values[..|values|] == values;
    FirstForbiddenMeans(values, allowed);
    return Accepted(scopes, Join(scopes, " "));
  }

  // ---------------------------------------------------------------------------------------------
  // Main results
  // ---------------------------------------------------------------------------------------------

  /** Whatever is accepted is allowed; whatever is rejected names a scope that is not. */
  lemma AcceptedIsAllowed(scope: string, defaultScopes: seq<string>, allowedScopes: seq<string>, allowed: set<string>)
    ensures match WithDefault(scope, defaultScopes, allowedScopes, allowed)
            case Accepted(scopes, _) => forall v :: v in scopes ==> v in allowed
            case Rejected(bad) => bad !in allowed
  {
    hide TrimSpace, Fields, Join;
    FirstForbiddenMeans(Fields(scope), allowed);
    WordsAreNotBlank(scope);
    DefaultsAreAllowed(Defaults(defaultScopes, allowedScopes), allowed);
  }

  lemma WordsAreNotBlank(scope: string)
    ensures forall v :: v in Fields(scope) ==> v != ""
  {
    FieldsAreWords(scope, []);
  }

  lemma DefaultsAreAllowed(values: seq<string>, allowed: set<string>)
    ensures match OfDefaults(values, allowed)
            case Accepted(scopes, _) => forall v :: v in scopes ==> v in allowed
            case Rejected(bad) => bad !in allowed
  {
    hide Join, Distinct, FirstForbidden;
    FirstForbiddenMeans(values, allowed);
    forall v | v in Distinct(values)
      ensures v != "" && v in values
    {
      DistinctMembers(values, v);
    }
  }

  /** An explicit request is accepted exactly when every word of it is allowed, and prints back to itself. */
  lemma ExplicitRoundTrip(scope: string, allowed: set<string>)
    ensures Explicit(scope, allowed).Accepted? <==> forall v :: v in Fields(scope) ==> v in allowed
    ensures Explicit(scope, allowed).Accepted? ==>
              Explicit(scope, allowed).scopes == Fields(scope) == Fields(Explicit(scope, allowed).printed)
  {
    FieldsAreWords(scope, []);
    FirstForbiddenMeans(Fields(scope), allowed);
    FieldsJoin(Fields(scope));
  }

  /** With no scope string, the result lists the trimmed defaults without blanks and repeats, in order. */
  lemma DefaultsInOrder(scope: string, defaultScopes: seq<string>, allowedScopes: seq<string>, allowed: set<string>, a: nat, b: nat, j: nat)
    requires TrimSpace(scope) == ""
    requires WithDefault(scope, defaultScopes, allowedScopes, allowed).Accepted?
    requires var values, scopes := Defaults(defaultScopes, allowedScopes), WithDefault(scope, defaultScopes, allowedScopes, allowed).scopes;
             a < b < |scopes| && j < |values| && values[j] == scopes[b]
    ensures var values, scopes := Defaults(defaultScopes, allowedScopes), WithDefault(scope, defaultScopes, allowedScopes, allowed).scopes;
            && scopes[a] != scopes[b]
            && exists i :: 0 <= i < j && values[i] == scopes[a]
  {
    hide TrimSpace, Fields, Join, FirstForbidden, Distinct;
    DistinctOnce(Defaults(defaultScopes, allowedScopes), a, b);
    DistinctOrder(Defaults(defaultScopes, allowedScopes), a, b, j);
  }

  /** Some configured default, or some allowed scope if there are no defaults, is v when trimmed. */
  ghost predicate Configured(v: string, defaultScopes: seq<string>, allowedScopes: seq<string>) {
    if |defaultScopes| > 0 then exists i :: 0 <= i < |defaultScopes| && TrimSpace(defaultScopes[i]) == v
    else exists i :: 0 <= i < |allowedScopes| && TrimSpace(allowedScopes[i]) == v
  }

  lemma ConfiguredMeans(v: string, defaultScopes: seq<string>, allowedScopes: seq<string>)
    ensures v in Defaults(defaultScopes, allowedScopes) <==> Configured(v, defaultScopes, allowedScopes)
  {
    hide TrimSpace;
    var all := Defaults(defaultScopes, allowedScopes);
    if |defaultScopes| > 0 {
      assert forall i :: 0 <= i < |defaultScopes| ==> all[i] == TrimSpace(defaultScopes[i]);
    } else {
      assert forall i :: 0 <= i < |allowedScopes| ==> all[i] == TrimSpace(allowedScopes[i]);
    }
  }

  /** The default path is accepted exactly if all that is configured and not blank is allowed, and then it is all of that. */
  lemma DefaultsAreComplete(scope: string, defaultScopes: seq<string>, allowedScopes: seq<string>, allowed: set<string>)
    requires TrimSpace(scope) == ""
    ensures var r := WithDefault(scope, defaultScopes, allowedScopes, allowed);
            && (r.Accepted? <==> forall v :: Configured(v, defaultScopes, allowedScopes) && v != "" ==> v in allowed)
            && (r.Accepted? ==> forall v :: v in r.scopes <==> v != "" && Configured(v, defaultScopes, allowedScopes))
  {
    hide TrimSpace, Fields, Join, FirstForbidden, Distinct, Configured;
    var all := Defaults(defaultScopes, allowedScopes);
    FirstForbiddenMeans(all, allowed);
    forall v
      ensures v in all <==> Configured(v, defaultScopes, allowedScopes)
      ensures v in Distinct(all) <==> v != "" && v in all
    {
      ConfiguredMeans(v, defaultScopes, allowedScopes);
      DistinctMembers(all, v);
    }
  }

  /** On the default path the printed string reads back exactly when no default has a blank inside. */
  lemma DefaultsReadBack(scope: string, defaultScopes: seq<string>, allowedScopes: seq<string>, allowed: set<string>)
    requires TrimSpace(scope) == ""
    requires WithDefault(scope, defaultScopes, allowedScopes, allowed).Accepted?
    ensures var r := WithDefault(scope, defaultScopes, allowedScopes, allowed);
            Fields(r.printed) == r.scopes <==> forall v :: v in Defaults(defaultScopes, allowedScopes) && v != "" ==> IsWord(v)
  {
    var values := Defaults(defaultScopes, allowedScopes);
    var r := WithDefault(scope, defaultScopes, allowedScopes, allowed);
    forall v
      ensures v in Distinct(values) <==> v != "" && v in values
    {
      DistinctMembers(values, v);
    }
    FieldsAreWords(r.printed, []);
    if forall v :: v in r.scopes ==> IsWord(v) {
      FieldsJoin(r.scopes);
    }
  }

  /** A default with a blank inside is accepted, and its printed form splits into other scopes. */
  lemma BlankInsideDoesNotReadBack()
    ensures var r := WithDefault("", ["a b"], [], {"a b"});
            r.Accepted? && r.scopes == ["a b"] && Fields(r.printed) != r.scopes
  {
    hide WithDefault, Fields;
    var one := "a b";
    assert one[1] == ' ' && one[1] in one && IsSpace(one[1]);
    OneBlankInside(one);
  }

  lemma OneBlankInside(one: string)
    requires one != "" && !IsSpace(one[0]) && !IsSpace(one[|one| - 1]) && !IsWord(one)
    ensures var r := WithDefault("", [one], [], {one});
            r.Accepted? && r.scopes == [one] && Fields(r.printed) != r.scopes
  {
    hide TrimSpace, Fields, Distinct, Join, FirstForbidden;
    TrimmedAlready(one);
    assert Defaults([one], []) == [one];
    OneDefault(one, {one});
    DefaultsReadBack("", [one], [], {one});
  }

  lemma TrimmedAlready(s: string)
    requires s != "" && !IsSpace(s[0]) && !IsSpace(s[|s| - 1])
    ensures TrimSpace(s) == s
  {
  }

  lemma OneDefault(one: string, allowed: set<string>)
    requires one != "" && one in allowed
    ensures OfDefaults([one], allowed) == Accepted([one], Join([one], " "))
  {
    FirstForbiddenMeans([one], allowed);
    assert Distinct([one][..0]) == [] && Distinct([one]) == [one];
  }
}
