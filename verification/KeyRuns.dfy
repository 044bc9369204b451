/**
 Whole runs of the key manager (oauth/keys/manager.go): any interleaving of EnsureSigningKey
 callers, rotations and clean-ups over one store.

 A rotation samples the clock, adds the grace and then swaps the key; `maxLag` bounds the time
 between the two. A clean-up samples the clock and then deletes.
 */
module KeyRuns {
  import opened Wrappers
  import opened SigningKeys

  type Id = nat

  datatype Job =
    | EnsureMissed
    | EnsureGenerated(key: SigningKey)
    | EnsureReturned(key: SigningKey)
    | RotateSampled(key: SigningKey, at: Time)
    | RotateReturned
    | CleanSampled(at: Time)

  datatype Sys = Sys(clock: Time, keys: seq<SigningKey>, jobs: map<Id, Job>)

  /** `deletes` is true in the program; false gives the store that never deletes. */
  datatype Config = Config(grace: int, maxLag: nat, deletes: bool)

  datatype Action =
    | Tick(delta: nat)
    | EnsureFind(id: Id)
    | EnsureGenerate(id: Id, kid: string, pem: string)
    | EnsureCommit(id: Id)
    | RotateSample(id: Id, kid: string, pem: string)
    | RotateSwap(id: Id)
    | CleanSample(id: Id)
    | CleanDelete(id: Id)

  /** The manager's calls when nothing comes in between; Step takes them apart. */
  class Manager {
    const store: MemoryStore

    constructor (store: MemoryStore)
      ensures this.store == store
    {
      this.store := store;
    }

    method EnsureSigningKey(kid: string, pem: string, now: Time) returns (r: SigningKey)
      modifies store
      ensures store.keys == Ensured(old(store.keys), Generated(kid, pem, now))
      ensures r in store.keys && r.isActive
      ensures (exists key :: key in old(store.keys) && key.isActive) ==> store.keys == old(store.keys)
      ensures (forall key :: key in old(store.keys) ==> !key.isActive) ==>
                && store.keys == old(store.keys) + [r] && r.kid == kid && r.publicKeyPEM == pem
                && r.createdAt == now && r.retiredAt.None?
    {
      FindActiveMeans(store.keys);
      var active := store.FindActiveSigningKey();
      if active.Some? {
        return active.value;
      }
      r := store.EnsureSigningKey(Generated(kid, pem, now));
    }

    method RotateSigningKey(kid: string, pem: string, grace: int, createdAt: Time, now: Time) returns (r: SigningKey)
      modifies store
      ensures store.keys == Rotated(old(store.keys), Generated(kid, pem, createdAt), now + grace)
      ensures r in store.keys && r.isActive && forall key :: key in store.keys && key.isActive ==> key == r
      ensures r.kid == kid && r.publicKeyPEM == pem && r.createdAt == createdAt && r.retiredAt.None?
    {
      r := store.RotateSigningKey(Generated(kid, pem, createdAt), now + grace);
      assert store.keys[|store.keys| - 1] == r;
    }

    method RetireExpiredKeys(now: Time) returns (deleted: nat)
      modifies store
      ensures store.keys == Kept(old(store.keys), now) && deleted + |store.keys| == |old(store.keys)|
    {
      deleted := store.DeleteExpiredSigningKeys(now);
    }
  }

  function Step(cfg: Config, s: Sys, a: Action): Sys {
    match a
    case Tick(delta) => s.(clock := s.clock + delta)
    case EnsureFind(id) =>
      if id in s.jobs then s else
      s.(jobs := s.jobs[id := var found := FindActive(s.keys); if found.Some? then EnsureReturned(found.value) else EnsureMissed])
    case EnsureGenerate(id, kid, pem) =>
      if id !in s.jobs || !s.jobs[id].EnsureMissed? then s else
      s.(jobs := s.jobs[id := EnsureGenerated(Generated(kid, pem, s.clock))])
    case EnsureCommit(id) =>
      if id !in s.jobs || !s.jobs[id].EnsureGenerated? then s else
      s.(keys := Ensured(s.keys, s.jobs[id].key),
      jobs := s.jobs[id := EnsureReturned(EnsureResult(s.keys, s.jobs[id].key))])
    case RotateSample(id, kid, pem) =>
      if id in s.jobs then s else s.(jobs := s.jobs[id := RotateSampled(Generated(kid, pem, s.clock), s.clock)])
    case RotateSwap(id) =>
      if id !in s.jobs || !s.jobs[id].RotateSampled? || s.clock > s.jobs[id].at + cfg.maxLag then s else
      s.(keys := Rotated(s.keys, s.jobs[id].key, s.jobs[id].at + cfg.grace), jobs := s.jobs[id := RotateReturned])
    case CleanSample(id) =>
      if id in s.jobs then s else s.(jobs := s.jobs[id := CleanSampled(s.clock)])
    case CleanDelete(id) =>
      if id !in s.jobs || !s.jobs[id].CleanSampled? then s else
      s.(keys := if cfg.deletes then Kept(s.keys, s.jobs[id].at) else s.keys, jobs := s.jobs - {id})
  }

  function Run(cfg: Config, s: Sys, actions: seq<Action>): Sys
    decreases |actions|
  {
    if actions == [] then s else Run(cfg, Step(cfg, s, actions[0]), actions[1..])
  }

  predicate Init(s: Sys) {
    s.keys == [] && s.jobs == map[]
  }

  /** An EnsureSigningKey caller that finds nothing and is not disturbed adds the key it generated, dated when it did. */
  lemma EnsureAddsItsKey(cfg: Config, s: Sys, id: Id, kid: string, pem: string, d: nat)
    requires id !in s.jobs && forall key :: key in s.keys ==> !key.isActive
    ensures var t := Run(cfg, s, [EnsureFind(id), Tick(d), EnsureGenerate(id, kid, pem), EnsureCommit(id)]);
            var key := SigningKey(kid, pem, true, s.clock + d, None);
            && t.keys == s.keys + [key] && id in t.jobs && t.jobs[id] == EnsureReturned(key)
  {
    var a := [EnsureFind(id), Tick(d), EnsureGenerate(id, kid, pem), EnsureCommit(id)];
    FindActiveMeans(s.keys);
    hide FindActive;
    var s1 := Step(cfg, s, a[0]);
    var s2 := Step(cfg, s1, a[1]);
    var s3 := Step(cfg, s2, a[2]);
    assert a[1..][1..] == a[2..] && a[2..][1..] == a[3..] && a[3..][1..] == [];
    assert Run(cfg, s, a) == Run(cfg, s1, a[1..]) == Run(cfg, s2, a[2..]) == Run(cfg, s3, a[3..]) == Step(cfg, s3, a[3]);
  }

  /** A caller that finds an active key returns it, and nothing is added. */
  lemma EnsureFindsExisting(cfg: Config, s: Sys, id: Id)
    requires id !in s.jobs && exists key :: key in s.keys && key.isActive
    ensures var t := Run(cfg, s, [EnsureFind(id)]);
            t.keys == s.keys && id in t.jobs && t.jobs[id].EnsureReturned? && t.jobs[id].key in s.keys && t.jobs[id].key.isActive
  {
    FindActiveMeans(s.keys);
    hide FindActive;
    assert [EnsureFind(id)][1..] == [];
    assert Run(cfg, s, [EnsureFind(id)]) == Run(cfg, Step(cfg, s, EnsureFind(id)), []) == Step(cfg, s, EnsureFind(id));
  }

  /** A clean-up deletes exactly the keys that had retired before its sample. */
  lemma CleanDeletesExpired(cfg: Config, s: Sys, id: Id, d: nat, key: SigningKey)
    requires id !in s.jobs && cfg.deletes
    ensures key in Run(cfg, s, [CleanSample(id), Tick(d), CleanDelete(id)]).keys <==>
            key in s.keys && (key.isActive || key.retiredAt.None? || s.clock <= key.retiredAt.value)
  {
    var a := [CleanSample(id), Tick(d), CleanDelete(id)];
    KeptMembers(s.keys, s.clock);
    hide Kept;
    var s1 := Step(cfg, s, a[0]);
    var s2 := Step(cfg, s1, a[1]);
    assert a[1..][1..] == a[2..] && a[2..][1..] == [];
    assert Run(cfg, s, a) == Run(cfg, s1, a[1..]) == Run(cfg, s2, a[2..]) == Step(cfg, s2, a[2]);
  }

  /** A rotation adds the key it generated and retires the active ones one grace after its sample. */
  lemma RotateAddsItsKey(cfg: Config, s: Sys, id: Id, kid: string, pem: string, d: nat)
    requires id !in s.jobs && d <= cfg.maxLag
    ensures var t := Run(cfg, s, [RotateSample(id, kid, pem), Tick(d), RotateSwap(id)]);
            && |t.keys| == |s.keys| + 1 && t.keys[|s.keys|] == SigningKey(kid, pem, true, s.clock, None)
            && forall i :: 0 <= i < |s.keys| ==>
                             t.keys[i] == if s.keys[i].isActive then s.keys[i].(isActive := false, retiredAt := Some(s.clock + cfg.grace))
                                          else s.keys[i]
  {
    var a := [RotateSample(id, kid, pem), Tick(d), RotateSwap(id)];
    var s1 := Step(cfg, s, a[0]);
    var s2 := Step(cfg, s1, a[1]);
    assert a[1..][1..] == a[2..] && a[2..][1..] == [];
    assert Run(cfg, s, a) == Run(cfg, s1, a[1..]) == Run(cfg, s2, a[2..]) == Step(cfg, s2, a[2]);
  }

  // ---------------------------------------------------------------------------------------------
  // No signature loses its key inside the grace window
  // ---------------------------------------------------------------------------------------------

  /** The same key, whatever its state. */
  predicate Same(a: SigningKey, b: SigningKey) {
    a.kid == b.kid && a.publicKeyPEM == b.publicKeyPEM && a.createdAt == b.createdAt
  }

  /** k is in the store, and if it is retired it stays listed until `until`. */
  ghost predicate ListedUntil(keys: seq<SigningKey>, k: SigningKey, until: Time) {
    exists key :: key in keys && Same(key, k) && (key.isActive || (key.retiredAt.Some? && key.retiredAt.value >= until))
  }

  ghost predicate PastSamples(s: Sys) {
    forall id :: id in s.jobs && (s.jobs[id].RotateSampled? || s.jobs[id].CleanSampled?) ==> s.jobs[id].at <= s.clock
  }

  lemma StepKeepsListed(cfg: Config, s: Sys, a: Action, k: SigningKey, since: Time)
    requires PastSamples(s) && since <= s.clock < since + cfg.grace - cfg.maxLag
    requires ListedUntil(s.keys, k, since + cfg.grace - cfg.maxLag)
    ensures ListedUntil(Step(cfg, s, a).keys, k, since + cfg.grace - cfg.maxLag) && PastSamples(Step(cfg, s, a))
  {
    var until := since + cfg.grace - cfg.maxLag;
    var key :| key in s.keys && Same(key, k) && (key.isActive || (key.retiredAt.Some? && key.retiredAt.value >= until));
    var t := Step(cfg, s, a);
    match a
    case EnsureCommit(id) => assert key in t.keys;
    case RotateSwap(id) =>
      if t != s {
        var i :| 0 <= i < |s.keys| && s.keys[i] == key;
        assert t.keys[i] == Retire(key, s.jobs[id].at + cfg.grace);
        assert Retire(key, s.jobs[id].at + cfg.grace) in t.keys;
      }
    case CleanDelete(id) =>
      if t != s {
        KeptMembers(s.keys, s.jobs[id].at);
      }
    case _ =>
  }

  lemma {:induction false} RunKeepsListed(cfg: Config, s: Sys, actions: seq<Action>, k: SigningKey, since: Time)
    requires PastSamples(s) && since <= s.clock
    requires ListedUntil(s.keys, k, since + cfg.grace - cfg.maxLag)
    requires Run(cfg, s, actions).clock < since + cfg.grace - cfg.maxLag
    ensures ListedUntil(Run(cfg, s, actions).keys, k, since + cfg.grace - cfg.maxLag)
    decreases |actions|
  {
    if actions != [] {
      ClockIsMonotone(cfg, Step(cfg, s, actions[0]), actions[1..]);
      StepKeepsListed(cfg, s, actions[0], k, since);
      RunKeepsListed(cfg, Step(cfg, s, actions[0]), actions[1..], k, since);
    }
  }

  lemma {:induction false} ClockIsMonotone(cfg: Config, s: Sys, actions: seq<Action>)
    ensures s.clock <= Run(cfg, s, actions).clock
    decreases |actions|
  {
    if actions != [] {
      ClockIsMonotone(cfg, Step(cfg, s, actions[0]), actions[1..]);
    }
  }

  lemma {:induction false} RunKeepsPastSamples(cfg: Config, s: Sys, actions: seq<Action>)
    requires PastSamples(s)
    ensures PastSamples(Run(cfg, s, actions))
    decreases |actions|
  {
    hide Step, PastSamples;
    if actions != [] {
      StepKeepsPastSamples(cfg, s, actions[0]);
      RunKeepsPastSamples(cfg, Step(cfg, s, actions[0]), actions[1..]);
    }
  }

  /**
   A key active at time s is listed as verifying at every u < s + grace - maxLag, whatever
   rotations and clean-ups happen in between. With maxLag 0, a rotation swaps at the instant it samples.
   */
  lemma GraceIsHonoured(cfg: Config, s0: Sys, before: seq<Action>, after: seq<Action>, k: SigningKey)
    requires Init(s0)
    requires k in Run(cfg, s0, before).keys && k.isActive
    requires var s := Run(cfg, s0, before);
             Run(cfg, s, after).clock < s.clock + cfg.grace - cfg.maxLag
    ensures var t := Run(cfg, Run(cfg, s0, before), after);
            exists key :: key in Verifying(t.keys, t.clock) && Same(key, k)
  {
    var s := Run(cfg, s0, before);
    RunKeepsPastSamples(cfg, s0, before);
    RunKeepsListed(cfg, s, after, k, s.clock);
    var t := Run(cfg, s, after);
    VerifyingMembers(t.keys, t.clock);
  }

  /** A key is generated, and a rotation samples the clock and then waits for `lag`. */
  function SlowRotation(lag: nat): seq<Action> {
    [EnsureFind(1), EnsureGenerate(1, "a", ""), EnsureCommit(1), RotateSample(7, "b", ""), Tick(lag)]
  }

  lemma SlowRotationRun(cfg: Config, s0: Sys, lag: nat)
    requires Init(s0)
    ensures var s, at := Run(cfg, s0, SlowRotation(lag)), s0.clock;
            && s.clock == at + lag && s.keys == [Generated("a", "", at)]
            && 7 in s.jobs && s.jobs[7] == RotateSampled(Generated("b", "", at), at)
  {
    var a := SlowRotation(lag);
    var s1 := Step(cfg, s0, a[0]);
    var s2 := Step(cfg, s1, a[1]);
    var s3 := Step(cfg, s2, a[2]);
    var s4 := Step(cfg, s3, a[3]);
    assert s3.keys == [Generated("a", "", s0.clock)];
    assert a[1..][1..] == a[2..] && a[2..][1..] == a[3..] && a[3..][1..] == a[4..] && a[4..][1..] == [];
    assert Run(cfg, s0, a) == Run(cfg, s1, a[1..]) == Run(cfg, s2, a[2..]) == Run(cfg, s3, a[3..]);
    assert Run(cfg, s3, a[3..]) == Run(cfg, s4, a[4..]) == Step(cfg, s4, Tick(lag));
  }

  /** Every lag that can happen costs: once lag and wait add up to the grace, the key is no longer listed. */
  lemma LagShortensGrace(cfg: Config, s0: Sys, lag: nat, wait: nat)
    requires Init(s0) && lag <= cfg.maxLag && cfg.grace <= lag + wait
    ensures var s := Run(cfg, s0, SlowRotation(lag));
            var t := Run(cfg, s, [RotateSwap(7), Tick(wait)]);
            && s.keys == [Generated("a", "", s0.clock)] && t.clock == s.clock + wait
            && forall key :: key in Verifying(t.keys, t.clock) ==> key.kid == "b"
  {
    var actions := [RotateSwap(7), Tick(wait)];
    SlowRotationRun(cfg, s0, lag);
    var s := Run(cfg, s0, SlowRotation(lag));
    var s1 := Step(cfg, s, actions[0]);
    assert actions[1..][1..] == [];
    assert Run(cfg, s, actions) == Run(cfg, s1, actions[1..]) == Step(cfg, s1, Tick(wait));
    VerifyingMembers(s1.keys, s.clock + wait);
  }

  /** If k is active after `before`, it is listed after `after` when that ends less than `span` later. */
  ghost predicate ListedFor(cfg: Config, span: int, s0: Sys, before: seq<Action>, after: seq<Action>, k: SigningKey) {
    var s := Run(cfg, s0, before);
    var t := Run(cfg, s, after);
    Init(s0) && k in s.keys && k.isActive && t.clock < s.clock + span ==>
      exists key :: key in Verifying(t.keys, t.clock) && Same(key, k)
  }

  /** The longest span for which every active key stays listed in every run is the grace less the greatest lag. */
  lemma GraceIsExactly(cfg: Config, span: int)
    ensures (forall s0, before, after, k :: ListedFor(cfg, span, s0, before, after, k)) <==>
            span <= 0 || span <= cfg.grace - cfg.maxLag
  {
    if span <= 0 || span <= cfg.grace - cfg.maxLag {
      forall s0, before, after, k
        ensures ListedFor(cfg, span, s0, before, after, k)
      {
        ListedForGrace(cfg, span, s0, before, after, k);
      }
    } else {
      // Either the whole lag fits into the grace, or a shorter one uses it up.
      var lag: nat := if cfg.maxLag <= cfg.grace then cfg.maxLag else if cfg.grace > 0 then cfg.grace else 0;
      var wait: nat := if cfg.maxLag <= cfg.grace then cfg.grace - cfg.maxLag else 0;
      var s0 := Sys(0, [], map[]);
      LagShortensGrace(cfg, s0, lag, wait);
      assert !ListedFor(cfg, span, s0, SlowRotation(lag), [RotateSwap(7), Tick(wait)], Generated("a", "", 0));
    }
  }

  lemma ListedForGrace(cfg: Config, span: int, s0: Sys, before: seq<Action>, after: seq<Action>, k: SigningKey)
    requires span <= 0 || span <= cfg.grace - cfg.maxLag
    ensures ListedFor(cfg, span, s0, before, after, k)
  {
    var s := Run(cfg, s0, before);
    ClockIsMonotone(cfg, s, after);
    if Init(s0) && k in s.keys && k.isActive && Run(cfg, s, after).clock < s.clock + span {
      GraceIsHonoured(cfg, s0, before, after, k);
    }
  }

  /** The full grace is honoured in every run exactly when a rotation swaps at the instant it samples. */
  lemma FullGraceIff(cfg: Config)
    requires cfg.grace > 0
    ensures (forall s0, before, after, k :: ListedFor(cfg, cfg.grace, s0, before, after, k)) <==> cfg.maxLag == 0
  {
    GraceIsExactly(cfg, cfg.grace);
  }

  // ---------------------------------------------------------------------------------------------
  // One active key
  // ---------------------------------------------------------------------------------------------

  ghost predicate AtMostOneActive(keys: seq<SigningKey>) {
    forall i, j :: 0 <= i < j < |keys| ==> !(keys[i].isActive && keys[j].isActive)
  }

  ghost predicate SomeActive(keys: seq<SigningKey>) {
    exists key :: key in keys && key.isActive
  }

  ghost predicate Inv(s: Sys) {
    && AtMostOneActive(s.keys)
    && (forall id :: id in s.jobs && (s.jobs[id].EnsureReturned? || s.jobs[id].RotateReturned?) ==> SomeActive(s.keys))
    && (forall id :: id in s.jobs && (s.jobs[id].EnsureGenerated? || s.jobs[id].RotateSampled?) ==> Fresh(s.jobs[id].key))
  }

  lemma {:induction false} KeptActives(keys: seq<SigningKey>, now: Time)
    requires AtMostOneActive(keys)
    ensures AtMostOneActive(Kept(keys, now))
  {
    if keys != [] {
      KeptActives(keys[1..], now);
      KeptMembers(keys[1..], now);
      var rest := Kept(keys[1..], now);
      if keys[0].isActive {
        forall j | 0 <= j < |rest|
          ensures !rest[j].isActive
        {
          assert rest[j] in rest;
        }
      }
    }
  }

  lemma StepKeepsInv(cfg: Config, s: Sys, a: Action)
    requires Inv(s)
    ensures Inv(Step(cfg, s, a))
    ensures SomeActive(s.keys) ==> SomeActive(Step(cfg, s, a).keys)
  {
    FindActiveMeans(s.keys);
    var t := Step(cfg, s, a);
    match a
    case EnsureCommit(id) =>
      if t != s {
        assert FindActive(s.keys).None? ==> t.keys[|s.keys|] == s.jobs[id].key;
      }
    case RotateSwap(id) =>
      if t != s {
        assert t.keys[|s.keys|] == s.jobs[id].key;
      }
    case CleanDelete(id) =>
      if t != s {
        KeptMembers(s.keys, s.jobs[id].at);
        KeptActives(s.keys, s.jobs[id].at);
      }
    case _ =>
  }

  lemma {:induction false} RunKeepsInv(cfg: Config, s: Sys, actions: seq<Action>)
    requires Inv(s)
    ensures Inv(Run(cfg, s, actions))
    ensures SomeActive(s.keys) ==> SomeActive(Run(cfg, s, actions).keys)
    decreases |actions|
  {
    if actions != [] {
      StepKeepsInv(cfg, s, actions[0]);
      RunKeepsInv(cfg, Step(cfg, s, actions[0]), actions[1..]);
    }
  }

  /** From an empty store there is at most one active key, and exactly one once any caller has succeeded. */
  lemma OneActiveKey(cfg: Config, s0: Sys, actions: seq<Action>)
    requires Init(s0)
    ensures var s := Run(cfg, s0, actions);
            && AtMostOneActive(s.keys)
            && ((exists id :: id in s.jobs && (s.jobs[id].EnsureReturned? || s.jobs[id].RotateReturned?)) ==> SomeActive(s.keys))
  {
    RunKeepsInv(cfg, s0, actions);
  }

  ghost predicate ReturnedAreActive(s: Sys) {
    forall id :: id in s.jobs && s.jobs[id].EnsureReturned? ==> s.jobs[id].key in s.keys && s.jobs[id].key.isActive
  }

  lemma {:induction false} RunKeepsReturned(cfg: Config, s: Sys, actions: seq<Action>)
    requires Inv(s) && ReturnedAreActive(s) && forall a :: a in actions ==> !a.RotateSwap?
    ensures ReturnedAreActive(Run(cfg, s, actions))
    decreases |actions|
  {
    if actions != [] {
      var a, t := actions[0], Step(cfg, s, actions[0]);
      FindActiveMeans(s.keys);
      StepKeepsInv(cfg, s, a);
      if a.CleanDelete? && t != s {
        KeptMembers(s.keys, s.jobs[a.id].at);
      }
      RunKeepsReturned(cfg, t, actions[1..]);
    }
  }

  /** Without a rotation, all EnsureSigningKey callers return the same key, however many were generated. */
  lemma EnsureCallersAgree(cfg: Config, s0: Sys, actions: seq<Action>, p: Id, q: Id)
    requires Init(s0) && forall a :: a in actions ==> !a.RotateSwap?
    requires p in Run(cfg, s0, actions).jobs && Run(cfg, s0, actions).jobs[p].EnsureReturned?
    requires q in Run(cfg, s0, actions).jobs && Run(cfg, s0, actions).jobs[q].EnsureReturned?
    ensures Run(cfg, s0, actions).jobs[p].key == Run(cfg, s0, actions).jobs[q].key
  {
    RunKeepsReturned(cfg, s0, actions);
    RunKeepsInv(cfg, s0, actions);
    var s := Run(cfg, s0, actions);
    var i :| 0 <= i < |s.keys| && s.keys[i] == s.jobs[p].key;
    var j :| 0 <= j < |s.keys| && s.keys[j] == s.jobs[q].key;
  }

  // ---------------------------------------------------------------------------------------------
  // Clean-up is invisible over whole runs
  // ---------------------------------------------------------------------------------------------

  /** The two stores agree on everything that is not yet expired at u. */
  ghost predicate AgreeAt(s: Sys, t: Sys, u: Time) {
    s.clock == t.clock && s.jobs == t.jobs && Kept(s.keys, u) == Kept(t.keys, u)
  }

  lemma {:induction false} FindActiveOfKept(keys: seq<SigningKey>, u: Time)
    ensures FindActive(Kept(keys, u)) == FindActive(keys)
  {
    if keys != [] {
      FindActiveOfKept(keys[1..], u);
      assert Kept(keys, u) == if IsExpired(keys[0], u) then Kept(keys[1..], u) else [keys[0]] + Kept(keys[1..], u);
    }
  }

  lemma {:induction false} RetireOfKept(keys: seq<SigningKey>, at: Time, u: Time)
    ensures Kept(RetireAll(Kept(keys, u), at), u) == Kept(RetireAll(keys, at), u)
  {
    if keys != [] {
      RetireOfKept(keys[1..], at, u);
      var head := if IsExpired(keys[0], u) then [] else [keys[0]];
      assert RetireAll(keys, at) == RetireAll([keys[0]], at) + RetireAll(keys[1..], at);
      KeptAppend(RetireAll([keys[0]], at), RetireAll(keys[1..], at), u);
      assert RetireAll(Kept(keys, u), at) == RetireAll(head, at) + RetireAll(Kept(keys[1..], u), at);
      KeptAppend(RetireAll(head, at), RetireAll(Kept(keys[1..], u), at), u);
    }
  }

  lemma EnsureAgrees(a: seq<SigningKey>, b: seq<SigningKey>, key: SigningKey, u: Time)
    requires Kept(a, u) == Kept(b, u)
    ensures FindActive(a) == FindActive(b) && EnsureResult(a, key) == EnsureResult(b, key)
    ensures Kept(Ensured(a, key), u) == Kept(Ensured(b, key), u)
  {
    FindActiveOfKept(a, u);
    FindActiveOfKept(b, u);
    KeptAppend(a, [key], u);
    KeptAppend(b, [key], u);
    hide Kept, FindActive;
  }

  lemma RotateAgrees(a: seq<SigningKey>, b: seq<SigningKey>, key: SigningKey, at: Time, u: Time)
    requires Kept(a, u) == Kept(b, u)
    ensures Kept(Rotated(a, key, at), u) == Kept(Rotated(b, key, at), u)
  {
    hide Kept, RetireAll;
    RetireOfKept(a, at, u);
    RetireOfKept(b, at, u);
    KeptAppend(RetireAll(a, at), [key], u);
    KeptAppend(RetireAll(b, at), [key], u);
  }

  lemma StepKeepsAgreement(cfg: Config, s: Sys, t: Sys, a: Action, u: Time)
    requires AgreeAt(s, t, u) && PastSamples(s) && s.clock <= u
    ensures AgreeAt(Step(cfg.(deletes := true), s, a), Step(cfg.(deletes := false), t, a), u)
  {
    hide Kept, FindActive, Ensured, EnsureResult, Rotated;
    match a
    case EnsureFind(_) => EnsureAgrees(s.keys, t.keys, Generated("", "", 0), u);
    case EnsureCommit(id) =>
      if id in s.jobs && s.jobs[id].EnsureGenerated? {
        EnsureAgrees(s.keys, t.keys, s.jobs[id].key, u);
      }
    case RotateSwap(id) =>
      if id in s.jobs && s.jobs[id].RotateSampled? {
        RotateAgrees(s.keys, t.keys, s.jobs[id].key, s.jobs[id].at + cfg.grace, u);
      }
    case CleanDelete(id) =>
      if id in s.jobs && s.jobs[id].CleanSampled? {
        KeptTwice(s.keys, s.jobs[id].at, u);
      }
    case _ =>
  }

  lemma StepKeepsPastSamples(cfg: Config, s: Sys, a: Action)
    requires PastSamples(s)
    ensures PastSamples(Step(cfg, s, a))
  {
    hide Kept, FindActive, Ensured, EnsureResult, Rotated;
  }

  lemma {:induction false} RunKeepsAgreement(cfg: Config, s: Sys, t: Sys, actions: seq<Action>, u: Time)
    requires AgreeAt(s, t, u) && PastSamples(s) && Run(cfg.(deletes := true), s, actions).clock <= u
    ensures AgreeAt(Run(cfg.(deletes := true), s, actions), Run(cfg.(deletes := false), t, actions), u)
    decreases |actions|
  {
    hide Step, AgreeAt, PastSamples;
    var yes, no := cfg.(deletes := true), cfg.(deletes := false);
    if actions != [] {
      ClockIsMonotone(yes, s, actions);
      StepKeepsAgreement(cfg, s, t, actions[0], u);
      StepKeepsPastSamples(yes, s, actions[0]);
      RunKeepsAgreement(cfg, Step(yes, s, actions[0]), Step(no, t, actions[0]), actions[1..], u);
    }
  }

  /**
   A store that is cleaned at any times and one that never deletes give the same answers to every
   caller and list the same keys in the same order at every time from then on.
   */
  lemma CleanupsAreInvisible(cfg: Config, s0: Sys, actions: seq<Action>, u: Time)
    requires Init(s0) && Run(cfg.(deletes := true), s0, actions).clock <= u
    ensures Run(cfg.(deletes := true), s0, actions).jobs == Run(cfg.(deletes := false), s0, actions).jobs
    ensures Verifying(Run(cfg.(deletes := true), s0, actions).keys, u) ==
            Verifying(Run(cfg.(deletes := false), s0, actions).keys, u)
  {
    RunKeepsAgreement(cfg, s0, s0, actions, u);
    CleanupInvisible(Run(cfg.(deletes := true), s0, actions).keys, u, u);
    CleanupInvisible(Run(cfg.(deletes := false), s0, actions).keys, u, u);
  }
}
