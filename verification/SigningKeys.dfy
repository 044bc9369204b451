/**
 The signing-key store (oauth/keys/memory.go).
 */
module SigningKeys {
  import opened Wrappers

  /** Nanoseconds on one clock. */
  type Time = int

  datatype SigningKey = SigningKey(kid: string, publicKeyPEM: string, isActive: bool, createdAt: Time, retiredAt: Option<Time>)

  /** A key as generateSigningKey makes it. */
  predicate Fresh(key: SigningKey) {
    key.isActive && key.retiredAt.None?
  }

  /** generateSigningKey: a new active key, dated now. */
  function Generated(kid: string, pem: string, now: Time): SigningKey {
    SigningKey(kid, pem, true, now, None)
  }

  predicate IsVerifying(key: SigningKey, now: Time) {
    key.isActive || (key.retiredAt.Some? && key.retiredAt.value > now)
  }

  predicate IsExpired(key: SigningKey, now: Time) {
    !key.isActive && key.retiredAt.Some? && key.retiredAt.value < now
  }

  function Retire(key: SigningKey, at: Time): SigningKey {
    if key.isActive then key.(isActive := false, retiredAt := Some(at)) else key
  }

  // What the store's operations mean on the list of keys -----------------------------------------

  function FindActive(keys: seq<SigningKey>): Option<SigningKey> {
    if keys == [] then None
    else if keys[0].isActive then Some(keys[0])
    else FindActive(keys[1..])
  }

  function Ensured(keys: seq<SigningKey>, key: SigningKey): seq<SigningKey> {
    if FindActive(keys).Some? then keys else keys + [key]
  }

  function EnsureResult(keys: seq<SigningKey>, key: SigningKey): SigningKey {
    if FindActive(keys).Some? then FindActive(keys).value else key
  }

  function RetireAll(keys: seq<SigningKey>, at: Time): seq<SigningKey> {
    seq(|keys|, i requires 0 <= i < |keys| => Retire(keys[i], at))
  }

  function Rotated(keys: seq<SigningKey>, replacement: SigningKey, at: Time): seq<SigningKey> {
    RetireAll(keys, at) + [replacement]
  }

  function Verifying(keys: seq<SigningKey>, now: Time): seq<SigningKey> {
    if keys == [] then []
    else (if IsVerifying(keys[0], now) then [keys[0]] else []) + Verifying(keys[1..], now)
  }

  function Kept(keys: seq<SigningKey>, now: Time): seq<SigningKey> {
    if keys == [] then []
    else (if IsExpired(keys[0], now) then [] else [keys[0]]) + Kept(keys[1..], now)
  }

  // Elementary facts -----------------------------------------------------------------------------

  lemma {:induction false} FindActiveMeans(keys: seq<SigningKey>)
    ensures FindActive(keys).None? ==> forall key :: key in keys ==> !key.isActive
    ensures FindActive(keys).Some? ==> FindActive(keys).value in keys && FindActive(keys).value.isActive
  {
    if keys != [] && !keys[0].isActive {
      FindActiveMeans(keys[1..]);
    }
  }

  lemma {:induction false} FindActiveOfPrefix(keys: seq<SigningKey>, i: nat)
    requires i < |keys| && keys[i].isActive && forall j :: 0 <= j < i ==> !keys[j].isActive
    ensures FindActive(keys) == Some(keys[i])
  {
    if i > 0 {
      FindActiveOfPrefix(keys[1..], i - 1);
    }
  }

  lemma {:induction false} VerifyingAppend(a: seq<SigningKey>, b: seq<SigningKey>, now: Time)
    ensures Verifying(a + b, now) == Verifying(a, now) + Verifying(b, now)
  {
    if a == [] {
      assert a + b == b;
    } else {
      assert (a + b)[1..] == a[1..] + b;
      VerifyingAppend(a[1..], b, now);
    }
  }

  lemma {:induction false} KeptAppend(a: seq<SigningKey>, b: seq<SigningKey>, now: Time)
    ensures Kept(a + b, now) == Kept(a, now) + Kept(b, now)
  {
    if a == [] {
      assert a + b == b;
    } else {
      assert (a + b)[1..] == a[1..] + b;
      KeptAppend(a[1..], b, now);
    }
  }

  lemma {:induction false} VerifyingMembers(keys: seq<SigningKey>, now: Time)
    ensures forall key :: key in Verifying(keys, now) <==> key in keys && IsVerifying(key, now)
  {
    if keys != [] {
      VerifyingMembers(keys[1..], now);
    }
  }

  lemma {:induction false} KeptMembers(keys: seq<SigningKey>, now: Time)
    ensures forall key :: key in Kept(keys, now) <==> key in keys && !IsExpired(key, now)
  {
    if keys != [] {
      KeptMembers(keys[1..], now);
    }
  }

  // The store ------------------------------------------------------------------------------------

  class MemoryStore {
    var keys: seq<SigningKey>

    constructor ()
      ensures keys == []
    {
      keys := [];
    }

    method FindActiveSigningKey() returns (r: Option<SigningKey>)
      ensures r == FindActive(keys)
    {
      for i := 0 to |keys|
        invariant forall j :: 0 <= j < i ==> !keys[j].isActive
      {
        if keys[i].isActive {
          FindActiveOfPrefix(keys, i);
          return Some(keys[i]);
        }
      }
      FindActiveMeans(keys);
      return None;
    }

    method EnsureSigningKey(key: SigningKey) returns (r: SigningKey)
      modifies this
      ensures keys == Ensured(old(keys), key)
      ensures r == EnsureResult(old(keys), key)
    {
      for i := 0 to |keys|
        invariant keys == old(keys)
        invariant forall j :: 0 <= j < i ==> !keys[j].isActive
      {
        if keys[i].isActive {
          FindActiveOfPrefix(keys, i);
          return keys[i];
        }
      }
      FindActiveMeans(keys);
      keys := keys + [key];
      return key;
    }

    method RotateSigningKey(replacement: SigningKey, retiredAt: Time) returns (r: SigningKey)
      modifies this
      ensures keys == Rotated(old(keys), replacement, retiredAt)
      ensures r == replacement
    {
      for i := 0 to |keys|
        invariant |keys| == |old(keys)|
        invariant forall j :: 0 <= j < i ==> keys[j] == Retire(old(keys)[j], retiredAt)
        invariant forall j :: i <= j < |keys| ==> keys[j] == old(keys)[j]
      {
        if keys[i].isActive {
          keys := keys[i := keys[i].(isActive := false, retiredAt := Some(retiredAt))];
        }
      }
      assert keys == RetireAll(old(keys), retiredAt);
      keys := keys + [replacement];
      return replacement;
    }

    method ListVerifyingSigningKeys(now: Time) returns (result: seq<SigningKey>)
      ensures result == Verifying(keys, now)
    {
      result := [];
      for i := 0 to |keys|
        invariant result == Verifying(keys[..i], now)
      {
        assert keys[..i + 1] == keys[..i] + [keys[i]];
        VerifyingAppend(keys[..i], [keys[i]], now);
        if keys[i].isActive || (keys[i].retiredAt.Some? && keys[i].retiredAt.value > now) {
          result := result + [keys[i]];
        }
      }
      assert keys[..|keys|] == keys;
    }

    method DeleteExpiredSigningKeys(now: Time) returns (deleted: nat)
      modifies this
      ensures keys == Kept(old(keys), now)
      ensures deleted + |keys| == |old(keys)|
    {
      var kept := [];
      deleted := 0;
      for i := 0 to |keys|
        invariant keys == old(keys)
        invariant kept == Kept(keys[..i], now) && deleted + |kept| == i
      {
        assert keys[..i + 1] == keys[..i] + [keys[i]];
        KeptAppend(keys[..i], [keys[i]], now);
        if !keys[i].isActive && keys[i].retiredAt.Some? && keys[i].retiredAt.value < now {
          deleted := deleted + 1;
        } else {
          kept := kept + [keys[i]];
        }
      }
      assert keys[..|keys|] == keys;
      keys := kept;
    }
  }

  // Clean-up is invisible ------------------------------------------------------------------------

  /** Deleting at d leaves what is listed at any later u the same, in the same order. */
  lemma {:induction false} CleanupInvisible(keys: seq<SigningKey>, d: Time, u: Time)
    requires d <= u
    ensures Verifying(Kept(keys, d), u) == Verifying(keys, u)
  {
    if keys != [] {
      CleanupInvisible(keys[1..], d, u);
      VerifyingAppend(if IsExpired(keys[0], d) then [] else [keys[0]], Kept(keys[1..], d), u);
    }
  }

  lemma {:induction false} KeptTwice(keys: seq<SigningKey>, d: Time, u: Time)
    requires d <= u
    ensures Kept(Kept(keys, d), u) == Kept(keys, u)
  {
    if keys != [] {
      KeptTwice(keys[1..], d, u);
      KeptAppend(if IsExpired(keys[0], d) then [] else [keys[0]], Kept(keys[1..], d), u);
    }
  }
}
