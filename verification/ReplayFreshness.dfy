/**
 What a request may have been served: it reported the replay it wrote, or it wrote the response of its
 own execution, or it waited for a flight and wrote a failure or a success whose window was over.
 */
module ReplayFreshness {
  import opened ReplayCache
  import opened ReplayProtocol
  import Safety = ReplaySafety
  import Audits = ReplayAudit

  /** A failure, or a success for k whose window is over. */
  ghost predicate Late(w: int, s: Sys, k: Key, response: Response) {
    !Success(response.status) || exists at :: Exec(k, at, response) in s.execs && at + w <= s.clock
  }

  /** A failure, or a success for k that is in the cache or whose window is over. */
  ghost predicate Settled(w: int, s: Sys, k: Key, response: Response) {
    || !Success(response.status)
    || exists at :: Exec(k, at, response) in s.execs &&
                    (at + w <= s.clock || (k in s.entries && s.entries[k].rotatedAt == at && s.entries[k].response == response))
  }

  /** r led a flight that executed and produced this response. */
  ghost predicate Led(s: Sys, r: ReqId, response: Response) {
    exists f :: f in s.outcomes && s.outcomes[f].owner == r && !s.outcomes[f].isReplay &&
                s.outcomes[f].response.response == response
  }

  ghost predicate RequestFresh(w: int, s: Sys, r: ReqId)
    requires r in s.requests
  {
    var k := s.requests[r].key;
    match s.requests[r].phase
    case Leading(_, f) => f in s.outcomes ==> Settled(w, s, k, s.outcomes[f].response.response)
    case Waiting(_, f) => f in s.outcomes ==> Settled(w, s, k, s.outcomes[f].response.response)
    case PostFlight(_, shared) => Settled(w, s, k, shared.response.response)
    case Done(written) => !Audits.Unhit(s, r) || Led(s, r, written) || Late(w, s, k, written)
    case _ => true
  }

  ghost predicate FlightFresh(w: int, s: Sys, k: Key)
    requires k in s.flights
  {
    s.flights[k].stage.Finished? ==> Settled(w, s, k, s.flights[k].stage.outcome.response.response)
  }

  ghost predicate Inv(w: int, s: Sys) {
    && (forall r :: r in s.requests ==> RequestFresh(w, s, r))
    && (forall k :: k in s.flights ==> FlightFresh(w, s, k))
  }

  // What every step preserves --------------------------------------------------------------------

  /** Nothing leaves the cache before its window is over, and nothing is forgotten. */
  ghost predicate Grows(w: int, s: Sys, t: Sys) {
    && s.clock <= t.clock
    && (forall x :: x in s.execs ==> x in t.execs)
    && (forall h :: h in s.hits ==> h in t.hits)
    && (forall f :: f in s.outcomes ==> f in t.outcomes && t.outcomes[f] == s.outcomes[f])
    && (forall k :: k in s.entries ==>
                      || s.entries[k].rotatedAt + w <= t.clock
                      || (k in t.entries && t.entries[k].rotatedAt == s.entries[k].rotatedAt
                          && t.entries[k].response == s.entries[k].response))
  }

  lemma SettledStays(w: int, s: Sys, t: Sys, k: Key, response: Response)
    requires Grows(w, s, t) && Settled(w, s, k, response)
    ensures Settled(w, t, k, response)
  {
  }

  lemma RequestStays(w: int, s: Sys, t: Sys, r: ReqId)
    requires Grows(w, s, t) && r in s.requests && r in t.requests && t.requests[r] == s.requests[r]
    requires RequestFresh(w, s, r)
    requires s.requests[r].phase.Leading? || s.requests[r].phase.Waiting? ==>
               s.requests[r].phase.flight in t.outcomes ==>
                 s.requests[r].phase.flight in s.outcomes || RequestFresh(w, t, r)
    ensures RequestFresh(w, t, r)
  {
    match s.requests[r].phase
    case Leading(_, f) =>
      if f in s.outcomes {
        SettledStays(w, s, t, s.requests[r].key, s.outcomes[f].response.response);
      }
    case Waiting(_, f) =>
      if f in s.outcomes {
        SettledStays(w, s, t, s.requests[r].key, s.outcomes[f].response.response);
      }
    case PostFlight(_, shared) => SettledStays(w, s, t, s.requests[r].key, shared.response.response);
    case _ =>
  }

  /** Only what changed has to be looked at. */
  lemma FrameKeepsInv(w: int, s: Sys, t: Sys)
    requires Inv(w, s) && Grows(w, s, t) && t.outcomes == s.outcomes
    requires forall r :: r in t.requests ==> (r in s.requests && t.requests[r] == s.requests[r]) || RequestFresh(w, t, r)
    requires forall k :: k in t.flights ==> (k in s.flights && t.flights[k].stage == s.flights[k].stage) || FlightFresh(w, t, k)
    ensures Inv(w, t)
  {
    forall r | r in t.requests
      ensures RequestFresh(w, t, r)
    {
      if r in s.requests && t.requests[r] == s.requests[r] {
        assert RequestFresh(w, s, r);
        hide RequestFresh;
        RequestStays(w, s, t, r);
      }
    }
    forall k | k in t.flights
      ensures FlightFresh(w, t, k)
    {
      if k in s.flights && t.flights[k].stage == s.flights[k].stage && t.flights[k].stage.Finished? {
        assert FlightFresh(w, s, k);
        SettledStays(w, s, t, k, t.flights[k].stage.outcome.response.response);
      }
    }
  }

  lemma LookupGrows(w: int, s: Sys, r: ReqId, k: Key, now: Time)
    requires Safety.Inv(w, s) && now <= s.clock
    ensures Grows(w, s, LookupBy(s, r, k, now))
  {
    assert k in s.entries ==> Safety.EntrySound(w, s, k);
    hide Safety.Inv;
  }

  /** A request that misses at a past time has nothing settled that is still in its window. */
  lemma MissIsLate(w: int, s: Sys, k: Key, now: Time, response: Response)
    requires Safety.Inv(w, s) && now <= s.clock && Lookup(s.entries, k, now).hit.None? && Settled(w, s, k, response)
    ensures Late(w, s, k, response)
  {
    assert k in s.entries ==> Safety.EntrySound(w, s, k);
    hide Safety.Inv;
  }

  lemma LateStays(w: int, s: Sys, t: Sys, k: Key, response: Response)
    requires Grows(w, s, t) && Late(w, s, k, response)
    ensures Late(w, t, k, response)
  {
  }

  lemma LookupFacts(w: int, s: Sys, r: ReqId)
    requires Safety.Inv(w, s) && r in s.requests && (s.requests[r].phase.Sampled? || s.requests[r].phase.PostFlight?)
    ensures s.requests[r].phase.now <= s.clock
  {
  }

  lemma FirstLookupKeepsInv(w: int, s: Sys, r: ReqId)
    requires Inv(w, s) && Safety.Inv(w, s)
    ensures Inv(w, DoFirstLookup(s, r))
  {
    hide Inv, Safety.Inv, Grows;
    if r in s.requests && s.requests[r].phase.Sampled? {
      LookupFacts(w, s, r);
      LookupGrows(w, s, r, s.requests[r].key, s.requests[r].phase.now);
      GrowsFrame(w, s, LookupBy(s, r, s.requests[r].key, s.requests[r].phase.now), DoFirstLookup(s, r));
      hide Lookup;
      FrameKeepsInv(w, s, DoFirstLookup(s, r));
    }
  }

  /** Grows looks at nothing but these parts. */
  lemma GrowsFrame(w: int, s: Sys, t: Sys, u: Sys)
    requires Grows(w, s, t) && u.clock == t.clock && u.execs == t.execs && u.hits == t.hits
    requires u.outcomes == t.outcomes && u.entries == t.entries
    ensures Grows(w, s, u)
  {
  }

  lemma GrowsSame(w: int, s: Sys, t: Sys)
    requires s.clock <= t.clock && t.hits == s.hits && t.outcomes == s.outcomes && t.entries == s.entries
    requires forall x :: x in s.execs ==> x in t.execs
    ensures Grows(w, s, t)
  {
  }

  lemma SecondLookupKeepsInv(w: int, s: Sys, r: ReqId)
    requires Inv(w, s) && Safety.Inv(w, s)
    ensures Inv(w, DoSecondLookup(s, r))
  {
    if r in s.requests && s.requests[r].phase.PostFlight? {
      assert RequestFresh(w, s, r);
      hide Inv, Safety.Inv, Grows, Settled, Late;
      var k, now, shared := s.requests[r].key, s.requests[r].phase.now, s.requests[r].phase.shared;
      var t := DoSecondLookup(s, r);
      LookupFacts(w, s, r);
      LookupGrows(w, s, r, k, now);
      GrowsFrame(w, s, LookupBy(s, r, k, now), t);
      if Lookup(s.entries, k, now).hit.None? {
        MissIsLate(w, s, k, now, shared.response.response);
        LateStays(w, s, t, k, shared.response.response);
      }
      hide Lookup;
      FrameKeepsInv(w, s, t);
    }
  }

  lemma EmitKeepsInv(w: int, s: Sys, r: ReqId)
    requires Inv(w, s) && Audits.Inv(s)
    ensures Inv(w, DoEmit(s, r))
  {
    if r in s.requests && s.requests[r].phase.Hit? {
      assert Audits.RequestSound(s, r);
      var t := DoEmit(s, r);
      assert !Audits.Unhit(t, r);
      hide Inv, Audits.Inv, Audits.RequestSound, Grows, Audits.Unhit;
      GrowsSame(w, s, t);
      FrameKeepsInv(w, s, t);
    }
  }

  lemma WakeKeepsInv(w: int, s: Sys, r: ReqId)
    requires Inv(w, s) && Audits.StatusesWritten(s)
    ensures Inv(w, DoWake(s, r))
  {
    var t := DoWake(s, r);
    if t != s {
      assert RequestFresh(w, s, r);
      GrowsSame(w, s, t);
      WokenIsFresh(w, s, r);
      hide Inv, Grows, Audits.StatusesWritten, RequestFresh;
      FrameKeepsInv(w, s, t);
    }
  }

  lemma WokenIsFresh(w: int, s: Sys, r: ReqId)
    requires r in s.requests && RequestFresh(w, s, r) && Audits.StatusesWritten(s)
    ensures RequestFresh(w, DoWake(s, r), r)
  {
    var t := DoWake(s, r);
    GrowsSame(w, s, t);
    if t != s && s.outcomes[s.requests[r].phase.flight].owner != r {
      SettledStays(w, s, t, s.requests[r].key, s.outcomes[s.requests[r].phase.flight].response.response);
    }
    hide Grows, Settled, Late;
  }

  lemma EnterGroupKeepsInv(w: int, s: Sys, r: ReqId)
    requires Inv(w, s) && Audits.Inv(s)
    ensures Inv(w, DoEnterGroup(s, r))
  {
    if r in s.requests && s.requests[r].phase.AtGroup? {
      var t, k := DoEnterGroup(s, r), s.requests[r].key;
      assert t.requests[r].phase.flight !in s.outcomes by {
        if k in s.flights {
          assert Audits.FlightSound(s, k);
        }
      }
      hide Inv, Audits.Inv, Grows;
      GrowsSame(w, s, t);
      FrameKeepsInv(w, s, t);
    }
  }

  lemma QuietKeepsInv(w: int, s: Sys, r: ReqId, k: Key, delta: nat)
    requires Inv(w, s)
    ensures Inv(w, s.(clock := s.clock + delta)) && Inv(w, DoArrive(s, r, k)) && Inv(w, DoSample(s, r))
  {
    hide Inv, Grows;
    GrowsSame(w, s, s.(clock := s.clock + delta));
    FrameKeepsInv(w, s, s.(clock := s.clock + delta));
    GrowsSame(w, s, DoArrive(s, r, k));
    FrameKeepsInv(w, s, DoArrive(s, r, k));
    GrowsSame(w, s, DoSample(s, r));
    FrameKeepsInv(w, s, DoSample(s, r));
  }

  lemma StageKeepsInv(cfg: Config, w: int, s: Sys, k: Key)
    requires Inv(w, s)
    ensures Inv(w, DoSampleRecheck(cfg, s, k)) && Inv(w, DoSampleRotation(s, k))
  {
    hide Inv, Grows;
    GrowsSame(w, s, DoSampleRecheck(cfg, s, k));
    FrameKeepsInv(w, s, DoSampleRecheck(cfg, s, k));
    GrowsSame(w, s, DoSampleRotation(s, k));
    FrameKeepsInv(w, s, DoSampleRotation(s, k));
  }

  lemma ExecuteKeepsInv(w: int, s: Sys, k: Key, response: Response)
    requires Inv(w, s)
    ensures Inv(w, DoExecute(s, k, response))
  {
    hide Inv, Grows;
    GrowsSame(w, s, DoExecute(s, k, response));
    FrameKeepsInv(w, s, DoExecute(s, k, response));
  }

  lemma RecheckKeepsInv(w: int, s: Sys, k: Key)
    requires Inv(w, s) && Safety.Inv(w, s)
    ensures Inv(w, DoRecheck(s, k))
  {
    if k in s.flights && s.flights[k].stage.Rechecking? {
      var t, at, leader := DoRecheck(s, k), s.flights[k].stage.at, s.flights[k].leader;
      Safety.InvMeansTimely(w, s);
      LookupGrows(w, s, leader, k, at);
      GrowsFrame(w, s, LookupBy(s, leader, k, at), t);
      assert FlightFresh(w, t, k) by {
        assert k in s.entries ==> Safety.EntrySound(w, s, k);
        hide Inv, Safety.Inv, Grows;
      }
      hide Inv, Safety.Inv, Grows, FlightFresh, RequestFresh, Lookup;
      FrameKeepsInv(w, s, t);
    }
  }

  lemma StoreKeepsInv(cfg: Config, s: Sys, k: Key)
    requires Inv(cfg.window, s) && Safety.Inv(cfg.window, s)
    ensures Inv(cfg.window, DoStore(cfg, s, k))
  {
    var w := cfg.window;
    if k in s.flights && s.flights[k].stage.Executed? {
      var t := DoStore(cfg, s, k);
      Safety.InvMeansTimely(w, s);
      assert Safety.StageSound(w, s, k);
      hide Inv, Safety.Inv;
      assert Grows(w, s, t);
      assert FlightFresh(w, t, k);
      hide Grows, FlightFresh, RequestFresh, Put, Safety.StageSound;
      FrameKeepsInv(w, s, t);
    }
  }

  lemma ReturnKeepsInv(w: int, s: Sys, k: Key)
    requires Inv(w, s) && Audits.Inv(s)
    ensures Inv(w, DoReturn(s, k))
  {
    if k in s.flights && s.flights[k].stage.Finished? {
      var t := DoReturn(s, k);
      assert Audits.FlightSound(s, k) && FlightFresh(w, s, k);
      assert Grows(w, s, t);
      forall r | r in t.requests
        ensures RequestFresh(w, t, r)
      {
        ReturnKeepsRequest(w, s, k, r);
      }
      forall j | j in t.flights
        ensures FlightFresh(w, t, j)
      {
        assert FlightFresh(w, s, j);
      }
    }
  }

  lemma ReturnKeepsRequest(w: int, s: Sys, k: Key, r: ReqId)
    requires Inv(w, s) && Audits.Inv(s) && k in s.flights && s.flights[k].stage.Finished? && r in s.requests
    ensures RequestFresh(w, DoReturn(s, k), r)
  {
    var t := DoReturn(s, k);
    assert Audits.FlightSound(s, k) && FlightFresh(w, s, k) && Audits.RequestSound(s, r) && RequestFresh(w, s, r);
    hide Inv;
    assert Grows(w, s, t);
    if s.requests[r].phase.Leading? || s.requests[r].phase.Waiting? {
      if s.requests[r].phase.flight == s.flights[k].id {
        // Flights have different numbers, so r waits for the flight of its own key.
        assert s.requests[r].key == k;
        SettledStays(w, s, t, k, s.flights[k].stage.outcome.response.response);
      }
    }
    hide Audits.Inv, Audits.RequestSound, Audits.FlightSound;
    RequestStays(w, s, t, r);
  }

  lemma StepKeepsInv(cfg: Config, s: Sys, a: Action)
    requires Inv(cfg.window, s) && Safety.Inv(cfg.window, s) && Audits.Inv(s) && Audits.StatusesWritten(s)
    ensures Inv(cfg.window, Step(cfg, s, a))
  {
    hide Inv, Safety.Inv, Audits.Inv, Audits.StatusesWritten, DoArrive, DoSample, DoFirstLookup, DoEnterGroup, DoSampleRecheck;
    hide DoRecheck, DoSampleRotation, DoExecute, DoStore, DoReturn, DoWake, DoSecondLookup, DoEmit;
    var w := cfg.window;
    match a
    case Tick(delta) => QuietKeepsInv(w, s, 0, "", delta);
    case Arrive(r, k) => QuietKeepsInv(w, s, r, k, 0);
    case Sample(r) => QuietKeepsInv(w, s, r, "", 0);
    case FirstLookup(r) => FirstLookupKeepsInv(w, s, r);
    case EnterGroup(r) => EnterGroupKeepsInv(w, s, r);
    case SampleRecheck(k) => StageKeepsInv(cfg, w, s, k);
    case Recheck(k) => RecheckKeepsInv(w, s, k);
    case SampleRotation(k) => StageKeepsInv(cfg, w, s, k);
    case Execute(k, status, header, body) => ExecuteKeepsInv(w, s, k, Response(RecordedStatus(status), header, body));
    case Store(k) => StoreKeepsInv(cfg, s, k);
    case Return(k) => ReturnKeepsInv(w, s, k);
    case Wake(r) => WakeKeepsInv(w, s, r);
    case SecondLookup(r) => SecondLookupKeepsInv(w, s, r);
    case Emit(r) => EmitKeepsInv(w, s, r);
  }

  lemma {:induction false} RunKeepsInv(cfg: Config, s: Sys, actions: seq<Action>)
    requires cfg.recheck
    requires Inv(cfg.window, s) && Safety.Inv(cfg.window, s) && Audits.Inv(s) && Audits.StatusesWritten(s)
    ensures Inv(cfg.window, Run(cfg, s, actions))
    decreases |actions|
  {
    hide Inv, Safety.Inv, Audits.Inv, Audits.StatusesWritten, Step;
    if actions != [] {
      StepKeepsInv(cfg, s, actions[0]);
      Safety.StepKeepsInv(cfg, s, actions[0]);
      Audits.StepKeepsInv(cfg, s, actions[0]);
      RunKeepsInv(cfg, Step(cfg, s, actions[0]), actions[1..]);
    }
  }

  // ---------------------------------------------------------------------------------------------
  // Main results
  // ---------------------------------------------------------------------------------------------

  /**
   In every interleaving, a finished request that reported nothing wrote the response of its own
   execution, or a failure, or a success for its key whose window is over.
   */
  lemma SilentMeansOwnOrLate(cfg: Config, s0: Sys, actions: seq<Action>, r: ReqId)
    requires cfg.recheck && Init(s0)
    requires r in Run(cfg, s0, actions).requests && Run(cfg, s0, actions).requests[r].phase.Done?
    requires forall h :: h in Run(cfg, s0, actions).emits ==> h.req != r
    ensures var s := Run(cfg, s0, actions);
            var k, written := s.requests[r].key, s.requests[r].phase.written;
            || Led(s, r, written)
            || !Success(written.status)
            || exists at :: Exec(k, at, written) in s.execs && at + cfg.window <= s.clock
  {
    RunKeepsInv(cfg, s0, actions);
    Audits.ReportsIffHit(cfg, s0, actions, r);
    assert RequestFresh(cfg.window, Run(cfg, s0, actions), r);
  }

  // ---------------------------------------------------------------------------------------------
  // An expired replay, served in silence
  // ---------------------------------------------------------------------------------------------

  const OK := Response(200, map[], [])

  /** The entry as the lookup inside the second flight leaves it. */
  function Replayed(w: int, c: Time): Entry {
    Entry(OK, c, c, 1, c + w)
  }

  /** Requests 0 and 1 have missed; 0 executes and 1 finds its response inside a flight of its own. */
  const SECOND_FLIGHT: seq<Action> :=
    [EnterGroup(0), SampleRecheck("k"), Recheck("k"), SampleRotation("k"), Execute("k", 200, map[], []), Store("k"),
     Return("k"), EnterGroup(1), SampleRecheck("k")]

  /** Request r arrives late, joins the flight of k and waits for it. */
  function LateWaiter(r: ReqId, k: Key): seq<Action> {
    [Sample(r), FirstLookup(r), EnterGroup(r)] + [Return(k), Wake(r), SecondLookup(r)]
  }

  /** The window ends before the second flight does, and request 2 comes in between. */
  function LateRun(w: nat): seq<Action> {
    Safety.TWO_MISSES + (SECOND_FLIGHT + ([Recheck("k"), Tick(w), Arrive(2, "k")] + LateWaiter(2, "k")))
  }

  function Missed2(s0: Sys): Sys {
    s0.(requests := map[0 := Request("k", AtGroup(s0.clock)), 1 := Request("k", AtGroup(s0.clock))])
  }

  function Executing(s0: Sys): Sys {
    s0.(requests := map[0 := Request("k", Leading(s0.clock, s0.nextFlight)), 1 := Request("k", AtGroup(s0.clock))],
    flights := map["k" := Flight(s0.nextFlight, 0, Missed)], nextFlight := s0.nextFlight + 1)
  }

  function Ran(w: int, s0: Sys): Sys {
    Executing(s0).(entries := map["k" := Stored(OK, s0.clock, w)], execs := [Exec("k", s0.clock, OK)],
    flights := map["k" := Flight(s0.nextFlight, 0, Finished(Outcome(Entry(OK, 0, 0, 0, 0), 0, false)))])
  }

  function Second(w: int, s0: Sys): Sys {
    var n := s0.nextFlight;
    Ran(w, s0).(outcomes := map[n := Outcome(Entry(OK, 0, 0, 0, 0), 0, false)], nextFlight := n + 2,
    flights := map["k" := Flight(n + 1, 1, Rechecking(s0.clock))],
    requests := map[0 := Request("k", Leading(s0.clock, n)), 1 := Request("k", Leading(s0.clock, n + 1))])
  }

  function Expired(w: int, s0: Sys): Sys {
    var n, e := s0.nextFlight, Replayed(w, s0.clock);
    Second(w, s0).(clock := s0.clock + w, entries := map["k" := e], hits := [Audit(1, "k", e)], looks := [Look(Audit(1, "k", e), s0.clock)],
    flights := map["k" := Flight(n + 1, 1, Finished(Outcome(e, 1, true)))],
    requests := Second(w, s0).requests[2 := Request("k", Arrived)])
  }

  lemma ExecutingRuns(cfg: Config, s0: Sys)
    requires Init(s0) && cfg.recheck
    ensures Run(cfg, Missed2(s0), [EnterGroup(0), SampleRecheck("k"), Recheck("k")]) == Executing(s0)
  {
    Safety.RunOfThree(cfg, Missed2(s0), [EnterGroup(0), SampleRecheck("k"), Recheck("k")]);
  }

  lemma RanRuns(cfg: Config, s0: Sys)
    requires Init(s0)
    ensures Run(cfg, Executing(s0), [SampleRotation("k"), Execute("k", 200, map[], []), Store("k")]) == Ran(cfg.window, s0)
  {
    Safety.RunOfThree(cfg, Executing(s0), [SampleRotation("k"), Execute("k", 200, map[], []), Store("k")]);
  }

  lemma SecondRuns(cfg: Config, s0: Sys)
    requires Init(s0) && cfg.recheck
    ensures Run(cfg, Ran(cfg.window, s0), [Return("k"), EnterGroup(1), SampleRecheck("k")]) == Second(cfg.window, s0)
  {
    Safety.RunOfThree(cfg, Ran(cfg.window, s0), [Return("k"), EnterGroup(1), SampleRecheck("k")]);
  }

  lemma ExpiredRuns(cfg: Config, s0: Sys)
    requires Init(s0) && cfg.window > 0
    ensures Run(cfg, Second(cfg.window, s0), [Recheck("k"), Tick(cfg.window), Arrive(2, "k")]) == Expired(cfg.window, s0)
  {
    Safety.RunOfThree(cfg, Second(cfg.window, s0), [Recheck("k"), Tick(cfg.window), Arrive(2, "k")]);
  }

  lemma LateJoins(cfg: Config, s: Sys, r: ReqId)
    requires r in s.requests && s.requests[r].phase.Arrived? && s.requests[r].key in s.flights
    requires s.requests[r].key in s.entries ==> s.entries[s.requests[r].key].expiresAt <= s.clock
    ensures var k := s.requests[r].key;
            Run(cfg, s, [Sample(r), FirstLookup(r), EnterGroup(r)]) ==
            AtPhase(s, r, Waiting(s.clock, s.flights[k].id)).(entries := s.entries - {k})
  {
    var k, actions := s.requests[r].key, [Sample(r), FirstLookup(r), EnterGroup(r)];
    Safety.RunOfThree(cfg, s, actions);
    hide Run;
    var s1 := AtPhase(s, r, Sampled(s.clock));
    var s2 := AtPhase(s, r, AtGroup(s.clock)).(entries := s.entries - {k});
    assert Step(cfg, s, actions[0]) == s1;
    assert k !in s.entries ==> s.entries - {k} == s.entries;
    assert Step(cfg, s1, actions[1]) == s2;
    assert Step(cfg, s2, actions[2]) == AtPhase(s, r, Waiting(s.clock, s.flights[k].id)).(entries := s.entries - {k});
  }

  lemma LateWakes(cfg: Config, s: Sys, r: ReqId, k: Key)
    requires r in s.requests && s.requests[r].key == k && s.requests[r].phase.Waiting? && k !in s.entries
    requires k in s.flights && s.flights[k].stage.Finished? && s.requests[r].phase.flight == s.flights[k].id
    requires s.flights[k].stage.outcome.owner != r && s.flights[k].stage.outcome.response.response.status != 0
    ensures var t := Run(cfg, s, [Return(k), Wake(r), SecondLookup(r)]);
            && r in t.requests && t.requests[r] == Request(k, Done(s.flights[k].stage.outcome.response.response))
            && t.emits == s.emits && t.execs == s.execs && t.clock == s.clock
  {
    var actions := [Return(k), Wake(r), SecondLookup(r)];
    Safety.RunOfThree(cfg, s, actions);
    hide Run;
    var now, outcome := s.requests[r].phase.now, s.flights[k].stage.outcome;
    var s1 := Step(cfg, s, actions[0]);
    var s2 := Step(cfg, s1, actions[1]);
    assert s2 == AtPhase(s1, r, PostFlight(now, outcome));
    assert Lookup(s2.entries, k, now).hit.None?;
  }

  /** Whoever arrives when the entry of its key has expired, while a flight is about to return, writes that flight's response in silence. */
  lemma LateWaiterIsSilent(cfg: Config, s: Sys, r: ReqId)
    requires r in s.requests && s.requests[r].phase.Arrived? && s.requests[r].key in s.flights
    requires var k := s.requests[r].key;
             && (k in s.entries ==> s.entries[k].expiresAt <= s.clock)
             && s.flights[k].stage.Finished? && s.flights[k].stage.outcome.owner != r
             && s.flights[k].stage.outcome.response.response.status != 0
    ensures var k := s.requests[r].key;
            var t := Run(cfg, s, LateWaiter(r, k));
            && r in t.requests && t.requests[r] == Request(k, Done(s.flights[k].stage.outcome.response.response))
            && t.emits == s.emits && t.execs == s.execs && t.clock == s.clock
  {
    hide Step, Run;
    var k := s.requests[r].key;
    LateJoins(cfg, s, r);
    RunAppend(cfg, s, [Sample(r), FirstLookup(r), EnterGroup(r)], [Return(k), Wake(r), SecondLookup(r)]);
    LateWakes(cfg, Run(cfg, s, [Sample(r), FirstLookup(r), EnterGroup(r)]), r, k);
  }

  /**
   For every window there is a run in which a request that arrives after the window of the only
   execution is over writes its response all the same, and nothing is reported.
   */
  lemma ExpiredReplayInSilence(w: nat, s0: Sys)
    requires Init(s0) && w > 0
    ensures var t := Run(Config(w, true), s0, LateRun(w));
            && 2 in t.requests && t.requests[2] == Request("k", Done(OK)) && t.emits == []
            && t.execs == [Exec("k", s0.clock, OK)] && s0.clock + w <= t.clock
  {
    hide Step, Run;
    var cfg := Config(w, true);
    var end := [Recheck("k"), Tick(w), Arrive(2, "k")] + LateWaiter(2, "k");
    Safety.TwoRequestsMiss(cfg, s0);
    RunAppend(cfg, s0, Safety.TWO_MISSES, SECOND_FLIGHT + end);
    SecondFlightRuns(cfg, s0);
    RunAppend(cfg, Missed2(s0), SECOND_FLIGHT, end);
    ExpiredRuns(cfg, s0);
    RunAppend(cfg, Second(w, s0), [Recheck("k"), Tick(w), Arrive(2, "k")], LateWaiter(2, "k"));
    LateWaiterIsSilent(cfg, Expired(w, s0), 2);
  }

  lemma SecondFlightRuns(cfg: Config, s0: Sys)
    requires Init(s0) && cfg.recheck
    ensures Run(cfg, Missed2(s0), SECOND_FLIGHT) == Second(cfg.window, s0)
  {
    hide Step, Run;
    var a := [EnterGroup(0), SampleRecheck("k"), Recheck("k")];
    var b := [SampleRotation("k"), Execute("k", 200, map[], []), Store("k")];
    var d := [Return("k"), EnterGroup(1), SampleRecheck("k")];
    assert SECOND_FLIGHT == a + (b + d);
    ExecutingRuns(cfg, s0);
    RunAppend(cfg, Missed2(s0), a, b + d);
    RanRuns(cfg, s0);
    RunAppend(cfg, Executing(s0), b, d);
    SecondRuns(cfg, s0);
  }
}
