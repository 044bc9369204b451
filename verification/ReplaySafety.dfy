/**
 Once a refresh succeeds, nothing executes again for its key before its window has passed, and
 until then every lookup returns that refresh.
 */
module ReplaySafety {
  import opened ReplayCache
  import opened ReplayProtocol

  predicate Succeeded(x: Exec) {
    Success(x.response.status)
  }

  /** Clock samples lie in the past. */
  ghost predicate Timely(s: Sys) {
    && s.clock > 0
    && (forall r :: r in s.requests ==> s.requests[r].phase.Arrived? || s.requests[r].phase.Done? ||
                                        0 < s.requests[r].phase.now <= s.clock)
    && (forall k :: k in s.flights ==> (s.flights[k].stage.Rechecking? || s.flights[k].stage.Rotating? ||
                                        s.flights[k].stage.Executed?) ==> 0 < s.flights[k].stage.at <= s.clock)
  }

  /** An entry is one successful execution, kept for exactly the window. */
  ghost predicate EntrySound(w: int, s: Sys, k: Key)
    requires k in s.entries
  {
    var e := s.entries[k];
    && Success(e.response.status)
    && e.expiresAt == e.rotatedAt + w
    && Exec(k, e.rotatedAt, e.response) in s.execs
  }

  ghost predicate HitSound(s: Sys, h: Audit) {
    Success(h.entry.response.status) && Exec(h.key, h.entry.rotatedAt, h.entry.response) in s.execs
  }

  /** A successful execution is out of its window, or in the cache, or about to be stored. */
  ghost predicate Covered(w: int, s: Sys, x: Exec) {
    || x.rotatedAt + w <= s.clock
    || (x.key in s.entries && s.entries[x.key].rotatedAt == x.rotatedAt && s.entries[x.key].response == x.response)
    || (x.key in s.flights && s.flights[x.key].stage == Executed(x.rotatedAt, x.response))
  }

  /** Every success for k so far is out of its window at time t. */
  ghost predicate QuietExecs(w: int, s: Sys, k: Key, t: Time) {
    forall x :: x in s.execs && x.key == k && Succeeded(x) ==> x.rotatedAt + w <= t
  }

  /** So is everything lookups have returned, or still could. */
  ghost predicate QuietReplays(w: int, s: Sys, k: Key, t: Time) {
    && (k in s.entries ==> s.entries[k].rotatedAt + w <= t)
    && (forall h :: h in s.hits && h.key == k ==> h.entry.rotatedAt + w <= t)
  }

  ghost predicate StageSound(w: int, s: Sys, k: Key)
    requires k in s.flights
  {
    match s.flights[k].stage
    case Missed => QuietExecs(w, s, k, s.clock)
    case Rotating(at) => QuietExecs(w, s, k, at)
    case Executed(at, response) => QuietReplays(w, s, k, at) && Exec(k, at, response) in s.execs
    case _ => true
  }

  /** The main claim, as an invariant on the log of executions. */
  ghost predicate Spaced(w: int, execs: seq<Exec>) {
    forall i, j :: 0 <= i < j < |execs| && execs[i].key == execs[j].key && Succeeded(execs[i]) ==>
      execs[i].rotatedAt + w <= execs[j].rotatedAt
  }

  ghost predicate Inv(w: int, s: Sys) {
    && Timely(s)
    && (forall k :: k in s.entries ==> EntrySound(w, s, k))
    && (forall h :: h in s.hits ==> HitSound(s, h))
    && (forall x :: x in s.execs && Succeeded(x) ==> Covered(w, s, x))
    && (forall k :: k in s.flights ==> StageSound(w, s, k))
    && Spaced(w, s.execs)
  }

  lemma LookupKeepsCovered(w: int, s: Sys, r: ReqId, k: Key, now: Time, x: Exec)
    requires Covered(w, s, x) && now <= s.clock && (k in s.entries ==> EntrySound(w, s, k))
    ensures Covered(w, LookupBy(s, r, k, now), x)
  {
  }

  lemma LookupKeepsStage(w: int, s: Sys, r: ReqId, k: Key, now: Time, j: Key)
    requires j in s.flights && StageSound(w, s, j)
    ensures StageSound(w, LookupBy(s, r, k, now), j)
  {
  }

  lemma LookupKeepsInv(w: int, s: Sys, r: ReqId, k: Key, now: Time)
    requires Inv(w, s) && 0 < now <= s.clock
    ensures Inv(w, LookupBy(s, r, k, now))
  {
    hide Covered, StageSound;
    var t := LookupBy(s, r, k, now);
    forall x | x in t.execs && Succeeded(x)
      ensures Covered(w, t, x)
    {
      LookupKeepsCovered(w, s, r, k, now, x);
    }
    forall j | j in t.flights
      ensures StageSound(w, t, j)
    {
      LookupKeepsStage(w, s, r, k, now, j);
    }
  }

  /** Nothing but lookups, rotation samples, executions and stores can matter. */
  lemma FrameKeepsInv(w: int, s: Sys, t: Sys)
    requires Inv(w, s) && Timely(t)
    requires t.clock >= s.clock && t.entries == s.entries && t.hits == s.hits && t.execs == s.execs
    requires forall k :: k in t.flights ==>
                           (k in s.flights && t.flights[k].stage == s.flights[k].stage) ||
                           t.flights[k].stage.Entered? || t.flights[k].stage.Rechecking? || t.flights[k].stage.Finished?
    requires forall k :: k in s.flights && s.flights[k].stage.Executed? ==> k in t.flights && t.flights[k].stage == s.flights[k].stage
    ensures Inv(w, t)
  {
  }

  /** After a lookup at a past time misses, every success for the key is out of its window. */
  lemma MissMeansQuiet(w: int, s: Sys, k: Key, at: Time)
    requires Inv(w, s) && at <= s.clock && Lookup(s.entries, k, at).hit.None?
    requires k in s.flights ==> !s.flights[k].stage.Executed?
    ensures QuietExecs(w, s, k, s.clock)
  {
  }

  /** A closure that has nothing to store moves to another stage. */
  lemma StageKeepsInv(w: int, s: Sys, k: Key, stage: Stage)
    requires Inv(w, s) && k in s.flights && !s.flights[k].stage.Executed? && !stage.Executed?
    requires Timely(AtStage(s, k, stage)) && StageSound(w, AtStage(s, k, stage), k)
    ensures Inv(w, AtStage(s, k, stage))
  {
    hide Timely;
    var t := AtStage(s, k, stage);
    forall x | x in t.execs && Succeeded(x)
      ensures Covered(w, t, x)
    {
      assert Covered(w, s, x);
    }
    forall j | j in t.flights
      ensures StageSound(w, t, j)
    {
      assert StageSound(w, s, j);
    }
  }

  lemma InvMeansTimely(w: int, s: Sys)
    requires Inv(w, s)
    ensures Timely(s) && forall k :: k in s.flights ==> StageSound(w, s, k)
  {
  }

  lemma RecheckKeepsInv(w: int, s: Sys, k: Key)
    requires Inv(w, s)
    ensures Inv(w, DoRecheck(s, k))
  {
    hide Inv;
    if k in s.flights && s.flights[k].stage.Rechecking? {
      var at, leader := s.flights[k].stage.at, s.flights[k].leader;
      var mid := LookupBy(s, leader, k, at);
      var found := Lookup(s.entries, k, at);
      InvMeansTimely(w, s);
      LookupKeepsInv(w, s, leader, k, at);
      if found.hit.Some? {
        StageKeepsInv(w, mid, k, Finished(Outcome(found.hit.value, leader, true)));
      } else {
        MissMeansQuiet(w, mid, k, at);
        StageKeepsInv(w, mid, k, Missed);
      }
    }
  }

  lemma SampleRotationKeepsInv(w: int, s: Sys, k: Key)
    requires Inv(w, s)
    ensures Inv(w, DoSampleRotation(s, k))
  {
  }

  lemma ExecuteKeepsInv(w: int, s: Sys, k: Key, response: Response)
    requires Inv(w, s)
    ensures Inv(w, DoExecute(s, k, response))
  {
    if k in s.flights && s.flights[k].stage.Rotating? {
      var t, at := DoExecute(s, k, response), s.flights[k].stage.at;
      assert StageSound(w, s, k);
      assert forall x :: x in t.execs <==> x in s.execs || x == Exec(k, at, response);
      forall x | x in t.execs && Succeeded(x)
        ensures Covered(w, t, x)
      {
        if x in s.execs {
          assert Covered(w, s, x);
        }
      }
      forall j | j in t.flights
        ensures StageSound(w, t, j)
      {
        if j == k {
          assert QuietReplays(w, t, k, at) by {
            if k in s.entries {
              assert EntrySound(w, s, k);
            }
            forall h | h in s.hits && h.key == k
              ensures h.entry.rotatedAt + w <= at
            {
              assert HitSound(s, h);
            }
          }
        } else {
          assert StageSound(w, s, j);
        }
      }
      forall j | j in t.entries
        ensures EntrySound(w, t, j)
      {
        assert EntrySound(w, s, j);
      }
      forall h | h in t.hits
        ensures HitSound(t, h)
      {
        assert HitSound(s, h);
      }
    }
  }

  lemma StoreKeepsInv(cfg: Config, s: Sys, k: Key)
    requires Inv(cfg.window, s)
    ensures Inv(cfg.window, DoStore(cfg, s, k))
  {
    var w := cfg.window;
    if k in s.flights && s.flights[k].stage.Executed? {
      var t, at, response := DoStore(cfg, s, k), s.flights[k].stage.at, s.flights[k].stage.response;
      assert StageSound(w, s, k);
      forall x | x in t.execs && Succeeded(x)
        ensures Covered(w, t, x)
      {
        assert Covered(w, s, x);
        if x.key == k && x.rotatedAt + w > s.clock && s.flights[k].stage != Executed(x.rotatedAt, x.response) {
          // Then x would be cached, but what is cached had expired by `at`.
          assert false;
        }
      }
      forall j | j in t.flights
        ensures StageSound(w, t, j)
      {
        assert StageSound(w, s, j);
      }
      forall j | j in t.entries
        ensures EntrySound(w, t, j)
      {
        if j != k {
          assert EntrySound(w, s, j);
        }
      }
    }
  }

  lemma RequestLookupKeepsInv(w: int, s: Sys, r: ReqId)
    requires Inv(w, s)
    ensures Inv(w, DoFirstLookup(s, r)) && Inv(w, DoSecondLookup(s, r))
  {
    hide Inv, Lookup;
    if r in s.requests && (s.requests[r].phase.Sampled? || s.requests[r].phase.PostFlight?) {
      InvMeansTimely(w, s);
      LookupKeepsInv(w, s, r, s.requests[r].key, s.requests[r].phase.now);
      FrameKeepsInv(w, LookupBy(s, r, s.requests[r].key, s.requests[r].phase.now),
                    if s.requests[r].phase.Sampled? then DoFirstLookup(s, r) else DoSecondLookup(s, r));
    }
  }

  lemma TickKeepsInv(w: int, s: Sys, delta: nat)
    requires Inv(w, s)
    ensures Inv(w, s.(clock := s.clock + delta))
  {
  }

  lemma ArriveKeepsInv(w: int, s: Sys, r: ReqId, k: Key)
    requires Inv(w, s)
    ensures Inv(w, DoArrive(s, r, k))
  {
  }

  lemma SampleKeepsInv(w: int, s: Sys, r: ReqId)
    requires Inv(w, s)
    ensures Inv(w, DoSample(s, r))
  {
  }

  lemma EnterGroupKeepsInv(w: int, s: Sys, r: ReqId)
    requires Inv(w, s)
    ensures Inv(w, DoEnterGroup(s, r))
  {
    hide Inv;
    InvMeansTimely(w, s);
    FrameKeepsInv(w, s, DoEnterGroup(s, r));
  }

  lemma WakeKeepsInv(w: int, s: Sys, r: ReqId)
    requires Inv(w, s)
    ensures Inv(w, DoWake(s, r))
  {
  }

  lemma EmitKeepsInv(w: int, s: Sys, r: ReqId)
    requires Inv(w, s)
    ensures Inv(w, DoEmit(s, r))
  {
  }

  lemma SampleRecheckKeepsInv(cfg: Config, s: Sys, k: Key)
    requires cfg.recheck && Inv(cfg.window, s)
    ensures Inv(cfg.window, DoSampleRecheck(cfg, s, k))
  {
  }

  lemma ReturnKeepsInv(w: int, s: Sys, k: Key)
    requires Inv(w, s)
    ensures Inv(w, DoReturn(s, k))
  {
  }

  lemma StepKeepsInv(cfg: Config, s: Sys, a: Action)
    requires cfg.recheck && Inv(cfg.window, s)
    ensures Inv(cfg.window, Step(cfg, s, a))
  {
    hide Inv, DoArrive, DoSample, DoFirstLookup, DoEnterGroup, DoSampleRecheck, DoRecheck, DoSampleRotation;
    hide DoExecute, DoStore, DoReturn, DoWake, DoSecondLookup, DoEmit;
    var w := cfg.window;
    match a
    case Tick(delta) => TickKeepsInv(w, s, delta);
    case Arrive(r, k) => ArriveKeepsInv(w, s, r, k);
    case Sample(r) => SampleKeepsInv(w, s, r);
    case FirstLookup(r) => RequestLookupKeepsInv(w, s, r);
    case EnterGroup(r) => EnterGroupKeepsInv(w, s, r);
    case SampleRecheck(k) => SampleRecheckKeepsInv(cfg, s, k);
    case Recheck(k) => RecheckKeepsInv(w, s, k);
    case SampleRotation(k) => SampleRotationKeepsInv(w, s, k);
    case Execute(k, status, header, body) => ExecuteKeepsInv(w, s, k, Response(RecordedStatus(status), header, body));
    case Store(k) => StoreKeepsInv(cfg, s, k);
    case Return(k) => ReturnKeepsInv(w, s, k);
    case Wake(r) => WakeKeepsInv(w, s, r);
    case SecondLookup(r) => RequestLookupKeepsInv(w, s, r);
    case Emit(r) => EmitKeepsInv(w, s, r);
  }

  lemma {:induction false} RunKeepsInv(cfg: Config, s: Sys, actions: seq<Action>)
    requires cfg.recheck && Inv(cfg.window, s)
    ensures Inv(cfg.window, Run(cfg, s, actions))
    decreases |actions|
  {
    if actions != [] {
      StepKeepsInv(cfg, s, actions[0]);
      RunKeepsInv(cfg, Step(cfg, s, actions[0]), actions[1..]);
    }
  }

  // ---------------------------------------------------------------------------------------------
  // Main results
  // ---------------------------------------------------------------------------------------------

  /** In every interleaving, a success at r is followed by no execution for its key before r + window. */
  lemma OneExecutionPerWindow(cfg: Config, s0: Sys, actions: seq<Action>, i: nat, j: nat)
    requires cfg.recheck && Init(s0)
    requires i < j < |Run(cfg, s0, actions).execs|
    requires Run(cfg, s0, actions).execs[i].key == Run(cfg, s0, actions).execs[j].key
    requires Success(Run(cfg, s0, actions).execs[i].response.status)
    ensures Run(cfg, s0, actions).execs[i].rotatedAt + cfg.window <= Run(cfg, s0, actions).execs[j].rotatedAt
  {
    RunKeepsInv(cfg, s0, actions);
  }

  /** After a success is stored and until its window ends, every lookup returns exactly it. */
  lemma LookupsHitWithinWindow(cfg: Config, s0: Sys, actions: seq<Action>, x: Exec, now: Time)
    requires cfg.recheck && Init(s0)
    requires x in Run(cfg, s0, actions).execs && Success(x.response.status)
    requires var s := Run(cfg, s0, actions);
             && now <= s.clock < x.rotatedAt + cfg.window
             && !(x.key in s.flights && s.flights[x.key].stage == Executed(x.rotatedAt, x.response))
    ensures var found := Lookup(Run(cfg, s0, actions).entries, x.key, now);
            && found.hit.Some?
            && found.hit.value.response == x.response
            && found.hit.value.rotatedAt == x.rotatedAt
  {
    RunKeepsInv(cfg, s0, actions);
    var s := Run(cfg, s0, actions);
    assert Covered(cfg.window, s, x);
    assert EntrySound(cfg.window, s, x.key);
  }

  /** Whatever is cached is a 2xx response that some execution produced, kept for exactly the window. */
  lemma CachedEntriesAreSuccesses(cfg: Config, s0: Sys, actions: seq<Action>, k: Key)
    requires cfg.recheck && Init(s0)
    requires k in Run(cfg, s0, actions).entries
    ensures var s := Run(cfg, s0, actions); var e := s.entries[k];
            && Success(e.response.status)
            && e.expiresAt == e.rotatedAt + cfg.window
            && Exec(k, e.rotatedAt, e.response) in s.execs
  {
    RunKeepsInv(cfg, s0, actions);
    assert EntrySound(cfg.window, Run(cfg, s0, actions), k);
  }

  /** Without the lookup inside the flight, whatever the window, a request that arrives just after a flight ends executes again. */
  lemma WithoutRecheckTwoExecutions(w: int, s0: Sys)
    requires Init(s0)
    ensures exists actions ::
              var execs := Run(Config(w, false), s0, actions).execs;
              |execs| == 2 && execs[0] == execs[1] && Success(execs[0].response.status)
  {
    hide Step;
    var cfg := Config(w, false);
    var s1 := Run(cfg, s0, TWO_MISSES);
    TwoRequestsMiss(cfg, s0);
    UncheckedFlight(w, s1, 0);
    UncheckedFlight(w, Run(cfg, s1, FlightOf(0)), 1);
    RunAppend(cfg, s1, FlightOf(0), FlightOf(1));
    RunAppend(cfg, s0, TWO_MISSES, FlightOf(0) + FlightOf(1));
    assert |Run(cfg, s0, TWO_MISSES + (FlightOf(0) + FlightOf(1))).execs| == 2;
  }

  const TWO_MISSES: seq<Action> :=
    [Arrive(0, "k"), Arrive(1, "k"), Sample(0), Sample(1), FirstLookup(0), FirstLookup(1)]

  /** A whole flight led by r. */
  function FlightOf(r: ReqId): seq<Action> {
    [EnterGroup(r), SampleRecheck("k"), SampleRotation("k"), Execute("k", 200, map[], []), Store("k"), Return("k")]
  }

  lemma TwoRequestsMiss(cfg: Config, s0: Sys)
    requires Init(s0)
    ensures var waiting := Request("k", AtGroup(s0.clock));
            Run(cfg, s0, TWO_MISSES) == s0.(requests := map[0 := waiting, 1 := waiting])
  {
    var k := "k";
    var a, b := TWO_MISSES[..3], TWO_MISSES[3..];
    assert a + b == TWO_MISSES;
    RunAppend(cfg, s0, a, b);
    assert Run(cfg, s0, a) == s0.(requests := map[0 := Request(k, Sampled(s0.clock)), 1 := Request(k, Arrived)]) by {
      RunOfThree(cfg, s0, a);
    }
    SecondRequestMisses(cfg, s0);
  }

  lemma SecondRequestMisses(cfg: Config, s0: Sys)
    requires Init(s0)
    ensures var s1 := s0.(requests := map[0 := Request("k", Sampled(s0.clock)), 1 := Request("k", Arrived)]);
            var waiting := Request("k", AtGroup(s0.clock));
            Run(cfg, s1, TWO_MISSES[3..]) == s0.(requests := map[0 := waiting, 1 := waiting])
  {
    var s1 := s0.(requests := map[0 := Request("k", Sampled(s0.clock)), 1 := Request("k", Arrived)]);
    RunOfThree(cfg, s1, TWO_MISSES[3..]);
  }

  lemma UncheckedFlight(w: int, s: Sys, r: ReqId)
    requires r in s.requests && s.requests[r].key == "k" && s.requests[r].phase.AtGroup? && s.flights == map[]
    ensures var t := Run(Config(w, false), s, FlightOf(r));
            && t.execs == s.execs + [Exec("k", s.clock, Response(200, map[], []))]
            && t.flights == map[] && t.clock == s.clock
            && r in t.requests && t.requests == s.requests[r := t.requests[r]]
  {
    var cfg, k := Config(w, false), "k";
    var a, b := FlightOf(r)[..3], FlightOf(r)[3..];
    assert a + b == FlightOf(r);
    assert a == [EnterGroup(r), SampleRecheck(k), SampleRotation(k)] && b == [Execute(k, 200, map[], []), Store(k), Return(k)];
    RunAppend(cfg, s, a, b);
    UncheckedStart(w, s, r);
    UncheckedEnd(w, Run(cfg, s, a), s.clock);
  }

  lemma UncheckedStart(w: int, s: Sys, r: ReqId)
    requires r in s.requests && s.requests[r].key == "k" && s.requests[r].phase.AtGroup? && s.flights == map[]
    ensures var t := Run(Config(w, false), s, [EnterGroup(r), SampleRecheck("k"), SampleRotation("k")]);
            && t.execs == s.execs && t.clock == s.clock
            && t.flights == map["k" := Flight(s.nextFlight, r, Rotating(s.clock))]
            && r in t.requests && t.requests == s.requests[r := t.requests[r]]
  {
    var cfg := Config(w, false);
    RunOfThree(cfg, s, [EnterGroup(r), SampleRecheck("k"), SampleRotation("k")]);
  }

  lemma UncheckedEnd(w: int, s: Sys, at: Time)
    requires "k" in s.flights && s.flights.Keys == {"k"} && s.flights["k"].stage == Rotating(at)
    ensures var t := Run(Config(w, false), s, [Execute("k", 200, map[], []), Store("k"), Return("k")]);
            && t.execs == s.execs + [Exec("k", at, Response(200, map[], []))]
            && t.clock == s.clock && t.flights == map[] && t.requests == s.requests
  {
    var cfg, actions := Config(w, false), [Execute("k", 200, map[], []), Store("k"), Return("k")];
    RunOfThree(cfg, s, actions);
    hide Run;
    var s1 := Step(cfg, s, actions[0]);
    assert s1.execs == s.execs + [Exec("k", at, Response(200, map[], []))] && s1.flights["k"].stage.Executed?;
    var s2 := Step(cfg, s1, actions[1]);
    assert s2.execs == s1.execs && s2.flights.Keys == {"k"} && s2.flights["k"].stage.Finished?;
  }

  lemma RunOfThree(cfg: Config, s: Sys, a: seq<Action>)
    requires |a| == 3
    ensures Run(cfg, s, a) == Step(cfg, Step(cfg, Step(cfg, s, a[0]), a[1]), a[2])
  {
    hide Step;
    var b := a[1..];
    var c := b[1..];
    assert c[1..] == [] && b[0] == a[1] && c[0] == a[2];
    var t := Step(cfg, s, a[0]);
    assert Run(cfg, t, b) == Run(cfg, Step(cfg, t, b[0]), c);
  }
}
