/**
 The rotation loop (oauth/keys/rotator.go) and the number of keys it leaves around.
 */
module Rotator {
  import opened Wrappers
  import opened SigningKeys

  const HOUR: int := 3_600_000_000_000
  const DEFAULT_INTERVAL := 90 * 24 * HOUR
  const DEFAULT_GRACE := 48 * HOUR

  class RotationConfig {
    var interval: int
    var grace: int

    constructor (interval: int, grace: int)
      ensures this.interval == interval && this.grace == grace
    {
      this.interval, this.grace := interval, grace;
    }

    /** Both durations end up at an hour or more; only 0 means the default of 90 days and of 48 hours (in nanoseconds). */
    method ApplyDefaults()
      modifies this
      ensures interval >= 3_600_000_000_000 && grace >= 3_600_000_000_000
      ensures old(interval) >= 3_600_000_000_000 ==> interval == old(interval)
      ensures old(grace) >= 3_600_000_000_000 ==> grace == old(grace)
      ensures old(interval) == 0 ==> interval == 7_776_000_000_000_000
      ensures old(grace) == 0 ==> grace == 172_800_000_000_000
      ensures old(interval) < 3_600_000_000_000 && old(interval) != 0 ==> interval == 3_600_000_000_000
      ensures old(grace) < 3_600_000_000_000 && old(grace) != 0 ==> grace == 3_600_000_000_000
    {
      if interval == 0 {
        interval := DEFAULT_INTERVAL;
      }
      if interval < HOUR {
        interval := HOUR;
      }
      if grace == 0 {
        grace := DEFAULT_GRACE;
      }
      if grace < HOUR {
        grace := HOUR;
      }
    }
  }

  /** The first rotation is due when the active key is one interval old, or now if it already is. */
  function DelayUntilFirstRotation(keys: seq<SigningKey>, interval: int, now: Time): (delay: int)
    ensures FindActive(keys).None? ==> delay == interval
    ensures FindActive(keys).Some? ==>
              var due := FindActive(keys).value.createdAt + interval;
              delay >= 0 && now + delay >= due && (delay == 0 || now + delay == due)
  {
    match FindActive(keys)
    case None => interval
    case Some(current) =>
      var age := now - current.createdAt;
      if age >= interval then 0 else interval - age
  }

  /** A key that has just been ensured or rotated in is rotated out one interval later. */
  lemma NewKeyLastsAnInterval(keys: seq<SigningKey>, kid: string, pem: string, interval: int, now: Time, at: Time, later: Time)
    requires interval > 0 && now <= later
    ensures (forall key :: key in keys ==> !key.isActive) ==>
              later + DelayUntilFirstRotation(Ensured(keys, Generated(kid, pem, now)), interval, later) ==
              if later <= now + interval then now + interval else later
    ensures later + DelayUntilFirstRotation(Rotated(keys, Generated(kid, pem, now), at), interval, later) ==
            if later <= now + interval then now + interval else later
  {
    var key := Generated(kid, pem, now);
    FindActiveMeans(keys);
    if forall k :: k in keys ==> !k.isActive {
      FindActiveOfPrefix(keys + [key], |keys|);
    }
    FindActiveOfPrefix(Rotated(keys, key, at), |keys|);
    hide FindActive;
  }

  datatype Config = Config(interval: int, grace: int)

  predicate ValidConfig(cfg: Config) {
    cfg.interval > 0 && cfg.grace > 0
  }

  /** Where the loop is: waiting for its timer, between sampling and swapping, or cleaning up. */
  datatype Phase =
    | Idle(due: Time)
    | Rotating(key: SigningKey, at: Time)
    | Swapped
    | Cleaning(at: Time)

  datatype Sys = Sys(clock: Time, keys: seq<SigningKey>, phase: Phase)

  datatype Action =
    | Tick(delta: nat)
    | Ensure(kid: string, pem: string)
    | Fire(kid: string, pem: string)
    | Swap(ok: bool)
    | SampleCleanup
    | Cleanup(ok: bool)

  /** A store operation can fail; the loop goes on either way and re-arms its timer when it is done. */
  function Step(cfg: Config, s: Sys, a: Action): Sys {
    match a
    case Tick(delta) => s.(clock := s.clock + delta)
    case Ensure(kid, pem) => s.(keys := Ensured(s.keys, Generated(kid, pem, s.clock)))
    case Fire(kid, pem) =>
      if !s.phase.Idle? || s.clock < s.phase.due then s else
      s.(phase := Rotating(Generated(kid, pem, s.clock), s.clock))
    case Swap(ok) =>
      if !s.phase.Rotating? then s else
      s.(phase := Swapped, keys := if ok then Rotated(s.keys, s.phase.key, s.phase.at + cfg.grace) else s.keys)
    case SampleCleanup =>
      if !s.phase.Swapped? then s else s.(phase := Cleaning(s.clock))
    case Cleanup(ok) =>
      if !s.phase.Cleaning? then s else
      s.(phase := Idle(s.clock + cfg.interval), keys := if ok then Kept(s.keys, s.phase.at) else s.keys)
  }

  function Run(cfg: Config, s: Sys, actions: seq<Action>): Sys
    decreases |actions|
  {
    if actions == [] then s else Run(cfg, Step(cfg, s, actions[0]), actions[1..])
  }

  /** The loop starts on an empty store or one with a single active key. */
  predicate Init(s: Sys) {
    s.phase.Idle? && (s.keys == [] || (|s.keys| == 1 && Fresh(s.keys[0])))
  }

  // ---------------------------------------------------------------------------------------------

  /** Only the last key can be active, and retirement times are at least an interval apart. */
  ghost predicate Spread(keys: seq<SigningKey>, interval: int) {
    && (forall i :: 0 <= i < |keys| - 1 ==> !keys[i].isActive)
    && (forall i :: 0 <= i < |keys| && !keys[i].isActive ==> keys[i].retiredAt.Some?)
    && (forall i, j :: 0 <= i < j < |keys| && !keys[j].isActive ==>
                         keys[i].retiredAt.value + interval <= keys[j].retiredAt.value)
  }

  /** Every retired key was retired by t at the latest. */
  ghost predicate RetiredBy(keys: seq<SigningKey>, t: Time) {
    forall i :: 0 <= i < |keys| && !keys[i].isActive ==> keys[i].retiredAt.Some? && keys[i].retiredAt.value <= t
  }

  ghost predicate Inv(cfg: Config, s: Sys) {
    && Spread(s.keys, cfg.interval)
    && RetiredBy(s.keys, s.clock + cfg.grace)
    && match s.phase
       case Idle(due) => RetiredBy(s.keys, due - cfg.interval + cfg.grace)
       case Rotating(key, at) => Fresh(key) && at <= s.clock && RetiredBy(s.keys, at - cfg.interval + cfg.grace)
       case Swapped => true
       case Cleaning(at) => at <= s.clock && RetiredBy(s.keys, at + cfg.grace)
  }

  lemma TailSpread(keys: seq<SigningKey>, interval: int, t: Time)
    requires keys != [] && Spread(keys, interval) && RetiredBy(keys, t)
    ensures Spread(keys[1..], interval) && RetiredBy(keys[1..], t)
  {
  }

  /** Any sub-list of the tail may follow the head, or stand alone. */
  lemma HeadSpread(keys: seq<SigningKey>, rest: seq<SigningKey>, interval: int, t: Time)
    requires keys != [] && Spread(keys, interval) && RetiredBy(keys, t) && Spread(rest, interval) && RetiredBy(rest, t)
    requires forall key :: key in rest ==> key in keys[1..]
    ensures Spread([keys[0]] + rest, interval) && RetiredBy([keys[0]] + rest, t)
  {
    forall j | 0 <= j < |rest|
      ensures !keys[0].isActive && (!rest[j].isActive ==> keys[0].retiredAt.value + interval <= rest[j].retiredAt.value)
    {
      assert rest[j] in keys[1..];
    }
    if rest != [] {
      assert rest[0] in keys[1..];
    }
    var all := [keys[0]] + rest;
    assert forall i :: 1 <= i < |all| ==> all[i] == rest[i - 1];
  }

  lemma {:induction false} KeptSpread(keys: seq<SigningKey>, interval: int, d: Time, t: Time)
    requires Spread(keys, interval) && RetiredBy(keys, t)
    ensures Spread(Kept(keys, d), interval) && RetiredBy(Kept(keys, d), t)
  {
    if keys != [] {
      hide Spread, RetiredBy;
      TailSpread(keys, interval, t);
      KeptSpread(keys[1..], interval, d, t);
      KeptMembers(keys[1..], d);
      HeadSpread(keys, Kept(keys[1..], d), interval, t);
      assert [] + Kept(keys[1..], d) == Kept(keys[1..], d);
    }
  }

  lemma {:induction false} VerifyingSpread(keys: seq<SigningKey>, interval: int, u: Time, t: Time)
    requires Spread(keys, interval) && RetiredBy(keys, t)
    ensures Spread(Verifying(keys, u), interval) && RetiredBy(Verifying(keys, u), t)
  {
    if keys != [] {
      hide Spread, RetiredBy;
      TailSpread(keys, interval, t);
      VerifyingSpread(keys[1..], interval, u, t);
      VerifyingMembers(keys[1..], u);
      HeadSpread(keys, Verifying(keys[1..], u), interval, t);
      assert [] + Verifying(keys[1..], u) == Verifying(keys[1..], u);
    }
  }

  lemma EnsureKeepsInv(cfg: Config, s: Sys, key: SigningKey)
    requires Inv(cfg, s) && Fresh(key)
    ensures Inv(cfg, s.(keys := Ensured(s.keys, key)))
  {
    FindActiveMeans(s.keys);
    var keys := Ensured(s.keys, key);
    assert forall i :: 0 <= i < |s.keys| ==> keys[i] == s.keys[i];
    assert FindActive(s.keys).None? ==> forall i :: 0 <= i < |s.keys| ==> !s.keys[i].isActive;
  }

  lemma SwapKeepsInv(cfg: Config, s: Sys, ok: bool)
    requires ValidConfig(cfg) && Inv(cfg, s)
    ensures Inv(cfg, Step(cfg, s, Swap(ok)))
  {
  }

  lemma CleanupKeepsInv(cfg: Config, s: Sys, ok: bool)
    requires Inv(cfg, s)
    ensures Inv(cfg, Step(cfg, s, Cleanup(ok)))
  {
    if s.phase.Cleaning? {
      KeptSpread(s.keys, cfg.interval, s.phase.at, s.clock + cfg.grace);
    }
  }

  lemma LoopKeepsInv(cfg: Config, s: Sys, a: Action)
    requires ValidConfig(cfg) && Inv(cfg, s) && (a.Tick? || a.Fire? || a.SampleCleanup?)
    ensures Inv(cfg, Step(cfg, s, a))
  {
  }

  lemma StepKeepsInv(cfg: Config, s: Sys, a: Action)
    requires ValidConfig(cfg) && Inv(cfg, s)
    ensures Inv(cfg, Step(cfg, s, a))
  {
    hide Inv;
    match a
    case Ensure(kid, pem) => EnsureKeepsInv(cfg, s, Generated(kid, pem, s.clock));
    case Swap(ok) => SwapKeepsInv(cfg, s, ok);
    case Cleanup(ok) => CleanupKeepsInv(cfg, s, ok);
    case _ => LoopKeepsInv(cfg, s, a);
  }

  lemma {:induction false} RunKeepsInv(cfg: Config, s: Sys, actions: seq<Action>)
    requires ValidConfig(cfg) && Inv(cfg, s)
    ensures Inv(cfg, Run(cfg, s, actions))
    decreases |actions|
  {
    if actions != [] {
      StepKeepsInv(cfg, s, actions[0]);
      RunKeepsInv(cfg, Step(cfg, s, actions[0]), actions[1..]);
    }
  }

  // ---------------------------------------------------------------------------------------------
  // Main results
  // ---------------------------------------------------------------------------------------------

  /** Keys retired at least an interval apart, the first at `low` or later, reach this far. */
  lemma {:induction false} SpreadReach(keys: seq<SigningKey>, interval: int, n: nat, low: Time)
    requires Spread(keys, interval) && 0 < n <= |keys| && interval > 0
    requires forall i :: 0 <= i < n ==> !keys[i].isActive
    requires keys[0].retiredAt.value >= low
    ensures keys[n - 1].retiredAt.value >= low + (n - 1) * interval
  {
    if n > 1 {
      SpreadReach(keys, interval, n - 1, low);
      assert (n - 1) * interval == (n - 2) * interval + interval;
    }
  }

  lemma MulMono(a: int, b: int, c: int)
    requires a <= b && 0 <= c
    ensures a * c <= b * c
  {
  }

  /** At most span / interval + 1 points that are an interval apart fit into a closed span. */
  lemma PointsInSpan(n: nat, interval: int, span: int)
    requires n > 0 && interval > 0 && (n - 1) * interval <= span
    ensures n <= span / interval + 1
  {
    var q := span / interval;
    assert span < (q + 1) * interval;
    if q + 1 <= n - 1 {
      MulMono(q + 1, n - 1, interval);
    }
  }

  lemma SpreadIsBounded(keys: seq<SigningKey>, interval: int, low: Time, high: Time)
    requires Spread(keys, interval) && interval > 0 && low <= high && RetiredBy(keys, high)
    requires forall key :: key in keys && !key.isActive ==> key.retiredAt.Some? && key.retiredAt.value >= low
    ensures |keys| <= (high - low) / interval + 2
  {
    var n := if keys != [] && keys[|keys| - 1].isActive then |keys| - 1 else |keys|;
    assert (high - low) / interval >= 0;
    if n > 0 {
      assert keys[0] in keys;
      SpreadReach(keys, interval, n, low);
      PointsInSpan(n, interval, high - low);
    }
  }

  lemma CeilDiv(a: int, b: int)
    requires b > 0
    ensures (a + b - 1) / b == (a - 1) / b + 1
  {
    var q, r := (a - 1) / b, (a - 1) % b;
    assert (q + 1) * b == q * b + b;
    DivUnique(a + b - 1, b, q + 1, r);
  }

  lemma DivUnique(x: int, b: int, q: int, r: int)
    requires b > 0 && x == q * b + r && 0 <= r < b
    ensures x / b == q
  {
    var p := x / b;
    assert p * b <= x < p * b + b;
    if p + 1 <= q {
      MulMono(p + 1, q, b);
    } else if q + 1 <= p {
      MulMono(q + 1, p, b);
    }
  }

  lemma VerifyingCount(keys: seq<SigningKey>, cfg: Config, u: Time)
    requires ValidConfig(cfg)
    requires Spread(Verifying(keys, u), cfg.interval) && RetiredBy(Verifying(keys, u), u + cfg.grace)
    ensures |Verifying(keys, u)| <= 1 + (cfg.grace + cfg.interval - 1) / cfg.interval
  {
    VerifyingMembers(keys, u);
    SpreadIsBounded(Verifying(keys, u), cfg.interval, u + 1, u + cfg.grace);
    CeilDiv(cfg.grace, cfg.interval);
  }

  /** At every time from now on, at most 1 + ceil(grace / interval) keys verify. */
  lemma VerifyingIsBounded(cfg: Config, s0: Sys, actions: seq<Action>, u: Time)
    requires ValidConfig(cfg) && Init(s0) && Run(cfg, s0, actions).clock <= u
    ensures |Verifying(Run(cfg, s0, actions).keys, u)| <= 1 + (cfg.grace + cfg.interval - 1) / cfg.interval
  {
    RunKeepsInv(cfg, s0, actions);
    var s := Run(cfg, s0, actions);
    VerifyingSpread(s.keys, cfg.interval, u, s.clock + cfg.grace);
    VerifyingCount(s.keys, cfg, u);
  }

  /** After every successful clean-up the store holds at most floor(grace / interval) + 2 keys. */
  lemma StoreIsBoundedAfterCleanup(cfg: Config, s0: Sys, actions: seq<Action>)
    requires ValidConfig(cfg) && Init(s0) && Run(cfg, s0, actions).phase.Cleaning?
    ensures |Step(cfg, Run(cfg, s0, actions), Cleanup(true)).keys| <= cfg.grace / cfg.interval + 2
  {
    RunKeepsInv(cfg, s0, actions);
    var s := Run(cfg, s0, actions);
    KeptSpread(s.keys, cfg.interval, s.phase.at, s.phase.at + cfg.grace);
    KeptMembers(s.keys, s.phase.at);
    SpreadIsBounded(Kept(s.keys, s.phase.at), cfg.interval, s.phase.at, s.phase.at + cfg.grace);
  }

  /** Until its timer is due, the loop does nothing, and k stays the active key. */
  ghost predicate Resting(s: Sys, due: Time, k: SigningKey) {
    s.clock < due ==> s.phase == Idle(due) && FindActive(s.keys) == Some(k)
  }

  lemma {:induction false} RunKeepsResting(cfg: Config, s: Sys, actions: seq<Action>, due: Time, k: SigningKey)
    requires Resting(s, due, k)
    ensures Resting(Run(cfg, s, actions), due, k)
    decreases |actions|
  {
    hide FindActive, Rotated, Kept;
    if actions != [] {
      RunKeepsResting(cfg, Step(cfg, s, actions[0]), actions[1..], due, k);
    }
  }

  /** A loop that starts with an active key k leaves it active until it is one interval old, whatever else happens. */
  lemma FirstRotationIsDue(cfg: Config, s0: Sys, actions: seq<Action>, k: SigningKey)
    requires FindActive(s0.keys) == Some(k)
    requires s0.phase == Idle(s0.clock + DelayUntilFirstRotation(s0.keys, cfg.interval, s0.clock))
    requires Run(cfg, s0, actions).clock < k.createdAt + cfg.interval
    ensures FindActive(Run(cfg, s0, actions).keys) == Some(k)
  {
    RunKeepsResting(cfg, s0, actions, s0.phase.due, k);
  }

  // ---------------------------------------------------------------------------------------------
  // The bounds are reached
  // ---------------------------------------------------------------------------------------------

  /** n keys retired one interval apart, the first at `first`, and then an active one. */
  ghost predicate Filled(keys: seq<SigningKey>, interval: int, first: Time, n: nat) {
    && |keys| == n + 1 && Fresh(keys[n])
    && forall i :: 0 <= i < n ==> !keys[i].isActive && keys[i].retiredAt == Some(first + i * interval)
  }

  /** The timer fires after `gap`, the key is swapped, and the clean-up has sampled its time. */
  function Turn(gap: nat): seq<Action> {
    [Tick(gap), Fire("k", ""), Swap(true), SampleCleanup]
  }

  lemma {:induction false} RunAppend(cfg: Config, s: Sys, a: seq<Action>, b: seq<Action>)
    ensures Run(cfg, s, a + b) == Run(cfg, Run(cfg, s, a), b)
    decreases |a|
  {
    hide Step;
    if a == [] {
      assert a + b == b;
    } else {
      assert (a + b)[1..] == a[1..] + b;
      RunAppend(cfg, Step(cfg, s, a[0]), a[1..], b);
    }
  }

  lemma RunOne(cfg: Config, s: Sys, a: Action)
    ensures Run(cfg, s, [a]) == Step(cfg, s, a)
  {
    hide Step;
    assert [a][1..] == [];
    assert Run(cfg, Step(cfg, s, a), []) == Step(cfg, s, a);
  }

  lemma TurnFills(cfg: Config, s: Sys, gap: nat, first: Time, n: nat)
    requires Filled(s.keys, cfg.interval, first, n) && s.phase.Idle?
    requires s.phase.due <= s.clock + gap && s.clock + gap + cfg.grace == first + n * cfg.interval
    ensures var t := Run(cfg, s, Turn(gap));
            && t.clock == s.clock + gap && t.phase == Cleaning(t.clock)
            && Filled(t.keys, cfg.interval, first, n + 1) && t.keys[n + 1] == SigningKey("k", "", true, t.clock, None)
  {
    var a := Turn(gap);
    var s1 := Step(cfg, s, a[0]);
    var s2 := Step(cfg, s1, a[1]);
    var s3 := Step(cfg, s2, a[2]);
    assert a[1..][1..] == a[2..] && a[2..][1..] == a[3..] && a[3..][1..] == [];
    assert Run(cfg, s, a) == Run(cfg, s1, a[1..]) == Run(cfg, s2, a[2..]) == Run(cfg, s3, a[3..]) == Step(cfg, s3, a[3]);
    SwapFills(s.keys, s2.phase.key, cfg.interval, first, n);
  }

  lemma SwapFills(keys: seq<SigningKey>, key: SigningKey, interval: int, first: Time, n: nat)
    requires Filled(keys, interval, first, n) && Fresh(key)
    ensures Filled(Rotated(keys, key, first + n * interval), interval, first, n + 1)
  {
  }

  /** Nothing is deleted before the first key retires. */
  lemma {:induction false} NothingExpires(keys: seq<SigningKey>, now: Time)
    requires forall key :: key in keys ==> !IsExpired(key, now)
    ensures Kept(keys, now) == keys
  {
    if keys != [] {
      NothingExpires(keys[1..], now);
    }
  }

  lemma {:induction false} EverythingVerifies(keys: seq<SigningKey>, now: Time)
    requires forall key :: key in keys ==> IsVerifying(key, now)
    ensures Verifying(keys, now) == keys
  {
    if keys != [] {
      EverythingVerifies(keys[1..], now);
    }
  }

  lemma FilledFrom(keys: seq<SigningKey>, interval: int, first: Time, n: nat)
    requires Filled(keys, interval, first, n) && interval > 0
    ensures forall key :: key in keys ==> key.isActive || (key.retiredAt.Some? && key.retiredAt.value >= first)
  {
    forall i | 0 <= i < n
      ensures keys[i].retiredAt.Some? && keys[i].retiredAt.value >= first
    {
      MulMono(0, i, interval);
    }
  }

  lemma FilledRetiresFrom(keys: seq<SigningKey>, interval: int, first: Time, n: nat, now: Time)
    requires Filled(keys, interval, first, n) && interval > 0
    ensures |keys| == n + 1
    ensures now <= first ==> Kept(keys, now) == keys
    ensures now < first ==> Verifying(keys, now) == keys
  {
    FilledFrom(keys, interval, first, n);
    assert |keys| == n + 1;
    hide Filled, Kept, Verifying;
    if now <= first {
      NothingExpires(keys, now);
    }
    if now < first {
      EverythingVerifies(keys, now);
    }
  }

  /** As long as n intervals fit into the grace, n + 1 turns leave n + 2 keys. */
  lemma {:induction false} TurnsFill(cfg: Config, s0: Sys, n: nat) returns (actions: seq<Action>, first: Time)
    requires ValidConfig(cfg) && Init(s0) && n * cfg.interval <= cfg.grace
    ensures var t := Run(cfg, s0, actions);
            && t.phase == Cleaning(t.clock) && t.clock + cfg.grace == first + n * cfg.interval
            && Filled(t.keys, cfg.interval, first, n + 1)
    decreases n
  {
    hide Filled;
    if n == 0 {
      actions, first := FirstTurn(cfg, s0);
    } else {
      MulMono(n - 1, n, cfg.interval);
      actions, first := TurnsFill(cfg, s0, n - 1);
      var t := Run(cfg, s0, actions);
      assert (n - 1) * cfg.interval == n * cfg.interval - cfg.interval;
      AnotherTurn(cfg, t, first, n);
      RunAppend(cfg, s0, actions, [Cleanup(true)] + Turn(cfg.interval));
      actions := actions + ([Cleanup(true)] + Turn(cfg.interval));
    }
  }

  lemma AnotherTurn(cfg: Config, s: Sys, first: Time, n: nat)
    requires ValidConfig(cfg) && n * cfg.interval <= cfg.grace && s.phase == Cleaning(s.clock)
    requires s.clock + cfg.interval + cfg.grace == first + n * cfg.interval && Filled(s.keys, cfg.interval, first, n)
    ensures var t := Run(cfg, s, [Cleanup(true)] + Turn(cfg.interval));
            && t.phase == Cleaning(t.clock) && t.clock + cfg.grace == first + n * cfg.interval
            && Filled(t.keys, cfg.interval, first, n + 1)
  {
    hide Filled, Turn;
    var s1 := Step(cfg, s, Cleanup(true));
    FilledRetiresFrom(s.keys, cfg.interval, first, n, s.clock);
    assert s1.keys == s.keys && s1.phase == Idle(s.clock + cfg.interval);
    RunOne(cfg, s, Cleanup(true));
    RunAppend(cfg, s, [Cleanup(true)], Turn(cfg.interval));
    TurnFills(cfg, s1, cfg.interval, first, n);
  }

  lemma FirstTurn(cfg: Config, s0: Sys) returns (actions: seq<Action>, first: Time)
    requires ValidConfig(cfg) && Init(s0)
    ensures var t := Run(cfg, s0, actions);
            && t.phase == Cleaning(t.clock) && t.clock + cfg.grace == first
            && Filled(t.keys, cfg.interval, first, 1)
  {
    hide Turn;
    var gap: nat := if s0.phase.due <= s0.clock then 0 else s0.phase.due - s0.clock;
    var s1 := Step(cfg, s0, Ensure("a", ""));
    first := s0.clock + gap + cfg.grace;
    assert |s1.keys| == 1 && Fresh(s1.keys[0]);
    assert Filled(s1.keys, cfg.interval, first, 0);
    TurnFills(cfg, s1, gap, first, 0);
    RunOne(cfg, s0, Ensure("a", ""));
    RunAppend(cfg, s0, [Ensure("a", "")], Turn(gap));
    actions := [Ensure("a", "")] + Turn(gap);
  }

  /** From every start, for every interval and grace, some run has exactly 1 + ceil(grace / interval) verifying keys. */
  lemma VerifyingBoundIsReached(cfg: Config, s0: Sys)
    requires ValidConfig(cfg) && Init(s0)
    ensures exists actions ::
              var s := Run(cfg, s0, actions);
              |Verifying(s.keys, s.clock)| == 1 + (cfg.grace + cfg.interval - 1) / cfg.interval
  {
    hide Run, Filled, Verifying;
    var n := (cfg.grace - 1) / cfg.interval;
    CeilDiv(cfg.grace, cfg.interval);
    assert n * cfg.interval <= cfg.grace - 1;
    var actions, first := TurnsFill(cfg, s0, n);
    var s := Run(cfg, s0, actions);
    FilledRetiresFrom(s.keys, cfg.interval, first, n + 1, s.clock);
    assert |Verifying(s.keys, s.clock)| == n + 2;
  }

  /** And some run has exactly floor(grace / interval) + 2 keys after a successful clean-up. */
  lemma StoreBoundIsReached(cfg: Config, s0: Sys)
    requires ValidConfig(cfg) && Init(s0)
    ensures exists actions ::
              var s := Run(cfg, s0, actions);
              s.phase.Cleaning? && |Step(cfg, s, Cleanup(true)).keys| == cfg.grace / cfg.interval + 2
  {
    hide Run, Filled, Kept;
    var n := cfg.grace / cfg.interval;
    assert n * cfg.interval <= cfg.grace;
    var actions, first := TurnsFill(cfg, s0, n);
    var s := Run(cfg, s0, actions);
    FilledRetiresFrom(s.keys, cfg.interval, first, n + 1, s.clock);
    assert Step(cfg, s, Cleanup(true)).keys == s.keys;
    assert s.phase.Cleaning? && |Step(cfg, s, Cleanup(true)).keys| == n + 2;
  }
}
