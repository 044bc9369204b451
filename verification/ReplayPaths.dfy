/**
 The ways through handleReplayableRefresh (oauth/handlers.go), each as one request takes it, with
 pauses of any length wherever the program reads the clock: what is executed, stored, written and
 reported, and which clock sample decides.
 */
module ReplayPaths {
  import opened ReplayCache
  import opened ReplayProtocol
  import Safety = ReplaySafety

  /** What a lookup at `now` makes of a live entry. */
  function NextReplay(e: Entry, now: Time): Entry {
    Entry(e.response, e.rotatedAt, if e.firstReplayAt == 0 then now else e.firstReplayAt, e.replayCount + 1, e.expiresAt)
  }

  predicate LiveAt(entries: map<Key, Entry>, k: Key, now: Time) {
    k in entries && now < entries[k].expiresAt
  }

  // A hit before the flight ----------------------------------------------------------------------

  lemma Arrives(cfg: Config, s: Sys, r: ReqId, k: Key, d: nat)
    requires r !in s.requests
    ensures Run(cfg, s, [Arrive(r, k), Sample(r), Tick(d)]) ==
            s.(requests := s.requests[r := Request(k, Sampled(s.clock))], clock := s.clock + d)
  {
    Safety.RunOfThree(cfg, s, [Arrive(r, k), Sample(r), Tick(d)]);
    hide Run;
    assert s.requests[r := Request(k, Arrived)][r := Request(k, Sampled(s.clock))] == s.requests[r := Request(k, Sampled(s.clock))];
  }

  lemma LooksUp(cfg: Config, s: Sys, r: ReqId)
    requires r in s.requests && s.requests[r].phase.Sampled? && LiveAt(s.entries, s.requests[r].key, s.requests[r].phase.now)
    ensures var k, now := s.requests[r].key, s.requests[r].phase.now;
            var t, e := Run(cfg, s, [FirstLookup(r), Emit(r), Tick(0)]), NextReplay(s.entries[k], now);
            && t.requests == s.requests[r := Request(k, Done(e.response))] && t.entries == s.entries[k := e]
            && t.emits == s.emits + [Audit(r, k, e)] && t.hits == s.hits + [Audit(r, k, e)]
            && t.execs == s.execs && t.flights == s.flights
  {
    var actions := [FirstLookup(r), Emit(r), Tick(0)];
    Safety.RunOfThree(cfg, s, actions);
    hide Run;
    var k, now := s.requests[r].key, s.requests[r].phase.now;
    var e := NextReplay(s.entries[k], now);
    var s1 := Step(cfg, s, actions[0]);
    assert s1.requests == s.requests[r := Request(k, Hit(now, e))] && s1.entries == s.entries[k := e];
    assert s1.emits == s.emits && s1.hits == s.hits + [Audit(r, k, e)] && s1.execs == s.execs && s1.flights == s.flights;
    hide DoFirstLookup, Lookup;
    var s2 := Step(cfg, s1, actions[1]);
    assert s2.requests == s.requests[r := Request(k, Done(e.response))];
  }

  /** A request that arrives while the entry of its key is live writes that response and reports it, even if it looks late. */
  lemma HitIsServed(cfg: Config, s: Sys, r: ReqId, k: Key, d: nat)
    requires r !in s.requests && LiveAt(s.entries, k, s.clock)
    ensures var t := Run(cfg, s, [Arrive(r, k), Sample(r), Tick(d)] + [FirstLookup(r), Emit(r), Tick(0)]);
            var e := NextReplay(s.entries[k], s.clock);
            && r in t.requests && t.requests[r] == Request(k, Done(s.entries[k].response))
            && t.emits == s.emits + [Audit(r, k, e)] && t.entries == s.entries[k := e] && t.execs == s.execs
  {
    hide Step, Run;
    RunAppend(cfg, s, [Arrive(r, k), Sample(r), Tick(d)], [FirstLookup(r), Emit(r), Tick(0)]);
    Arrives(cfg, s, r, k, d);
    LooksUp(cfg, Run(cfg, s, [Arrive(r, k), Sample(r), Tick(d)]), r);
  }

  // A miss and an execution ----------------------------------------------------------------------

  /** The state once a request r alone leads a flight for k that has not looked again yet. */
  function LedBy(s: Sys, r: ReqId, k: Key, now: Time, stage: Stage): Sys {
    s.(requests := s.requests[r := Request(k, Leading(now, s.nextFlight))], nextFlight := s.nextFlight + 1,
    flights := s.flights[k := Flight(s.nextFlight, r, stage)])
  }

  lemma MissesFirst(cfg: Config, s: Sys, r: ReqId, k: Key)
    requires r !in s.requests && !LiveAt(s.entries, k, s.clock)
    ensures Run(cfg, s, [Arrive(r, k), Sample(r), FirstLookup(r)]) ==
            s.(requests := s.requests[r := Request(k, AtGroup(s.clock))], entries := s.entries - {k})
  {
    var actions := [Arrive(r, k), Sample(r), FirstLookup(r)];
    Safety.RunOfThree(cfg, s, actions);
    hide Run;
    var s1 := s.(requests := s.requests[r := Request(k, Arrived)]);
    var s2 := s.(requests := s.requests[r := Request(k, Sampled(s.clock))]);
    assert Step(cfg, s, actions[0]) == s1;
    assert s1.requests[r := Request(k, Sampled(s.clock))] == s2.requests;
    assert Step(cfg, s1, actions[1]) == s2;
    hide DoArrive, DoSample;
    assert k !in s.entries ==> s.entries - {k} == s.entries;
    assert Step(cfg, s2, actions[2]) ==
           s.(requests := s.requests[r := Request(k, AtGroup(s.clock))], entries := s.entries - {k});
  }

  lemma StartsFlight(cfg: Config, s: Sys, r: ReqId, k: Key, now: Time, d: nat)
    requires cfg.recheck && r in s.requests && s.requests[r] == Request(k, AtGroup(now)) && k !in s.flights
    ensures Run(cfg, s, [EnterGroup(r), Tick(d), SampleRecheck(k)]) ==
            LedBy(s, r, k, now, Rechecking(s.clock + d)).(clock := s.clock + d)
  {
    var actions := [EnterGroup(r), Tick(d), SampleRecheck(k)];
    Safety.RunOfThree(cfg, s, actions);
    hide Run;
    var s2 := LedBy(s, r, k, now, Entered).(clock := s.clock + d);
    assert Step(cfg, Step(cfg, s, actions[0]), actions[1]) == s2;
    assert s2.flights[k := Flight(s.nextFlight, r, Rechecking(s.clock + d))] ==
           s.flights[k := Flight(s.nextFlight, r, Rechecking(s.clock + d))];
  }

  lemma MissesAgain(cfg: Config, s: Sys, k: Key, d1: nat, d2: nat)
    requires k in s.flights && s.flights[k].stage.Rechecking? && k !in s.entries
    ensures Run(cfg, s, [Tick(d1), Recheck(k), Tick(d2)]) == AtStage(s, k, Missed).(clock := s.clock + d1 + d2)
  {
    Safety.RunOfThree(cfg, s, [Tick(d1), Recheck(k), Tick(d2)]);
  }

  lemma Executes(cfg: Config, s: Sys, k: Key, d: nat, status: int, header: Fields, body: seq<bv8>)
    requires k in s.flights && s.flights[k].stage.Missed?
    ensures var response := Response(if status == 0 then 200 else status, header, body);
            Run(cfg, s, [SampleRotation(k), Tick(d), Execute(k, status, header, body)]) ==
            AtStage(s, k, Executed(s.clock, response)).(clock := s.clock + d, execs := s.execs + [Exec(k, s.clock, response)])
  {
    Safety.RunOfThree(cfg, s, [SampleRotation(k), Tick(d), Execute(k, status, header, body)]);
  }

  /** What the cache holds for k after a response that rotated at `at`. */
  function AfterRotation(entries: map<Key, Entry>, k: Key, response: Response, at: Time, window: int): map<Key, Entry> {
    if 200 <= response.status < 300 then entries[k := Entry(response, at, 0, 0, at + window)] else entries
  }

  lemma Ends(cfg: Config, s: Sys, r: ReqId, k: Key)
    requires k in s.flights && s.flights[k].stage.Executed? && s.flights[k].leader == r && s.flights[k].stage.response.status != 0
    requires r in s.requests && s.requests[r].key == k && s.requests[r].phase.Leading?
    requires s.requests[r].phase.flight == s.flights[k].id
    ensures var response, at := s.flights[k].stage.response, s.flights[k].stage.at;
            var t := Run(cfg, s, [Store(k), Return(k), Wake(r)]);
            && t.requests == s.requests[r := Request(k, Done(response))] && k !in t.flights
            && t.entries == AfterRotation(s.entries, k, response, at, cfg.window)
            && t.execs == s.execs && t.emits == s.emits && t.hits == s.hits
  {
    var actions := [Store(k), Return(k), Wake(r)];
    Safety.RunOfThree(cfg, s, actions);
    hide Run;
    var s1 := Step(cfg, s, actions[0]);
    var s2 := Step(cfg, s1, actions[1]);
    assert s2.outcomes[s.flights[k].id] == Outcome(Entry(s.flights[k].stage.response, 0, 0, 0, 0), r, false);
  }

  /** The first half: nothing cached, so r leads a flight that looks again. */
  function ToFlight(r: ReqId, k: Key, d: nat): seq<Action> {
    [Arrive(r, k), Sample(r), FirstLookup(r)] + [EnterGroup(r), Tick(d), SampleRecheck(k)]
  }

  lemma ReachesFlight(cfg: Config, s: Sys, r: ReqId, k: Key, d: nat)
    requires cfg.recheck && r !in s.requests && k !in s.flights && !LiveAt(s.entries, k, s.clock)
    ensures Run(cfg, s, ToFlight(r, k, d)) ==
            LedBy(s, r, k, s.clock, Rechecking(s.clock + d)).(clock := s.clock + d, entries := s.entries - {k})
  {
    hide Step, Run;
    RunAppend(cfg, s, [Arrive(r, k), Sample(r), FirstLookup(r)], [EnterGroup(r), Tick(d), SampleRecheck(k)]);
    MissesFirst(cfg, s, r, k);
    var s1 := s.(requests := s.requests[r := Request(k, AtGroup(s.clock))], entries := s.entries - {k});
    StartsFlight(cfg, s1, r, k, s.clock, d);
    assert s1.requests[r := Request(k, Leading(s.clock, s.nextFlight))] == s.requests[r := Request(k, Leading(s.clock, s.nextFlight))];
  }

  /** The second half: the second lookup misses too, and r executes, stores and returns. */
  function FromFlight(r: ReqId, k: Key, d1: nat, d2: nat, d3: nat, status: int, header: Fields, body: seq<bv8>): seq<Action> {
    [Tick(d1), Recheck(k), Tick(d2)] +
    ([SampleRotation(k), Tick(d3), Execute(k, status, header, body)] + [Store(k), Return(k), Wake(r)])
  }

  lemma LeavesFlight(cfg: Config, s: Sys, r: ReqId, k: Key, d1: nat, d2: nat, d3: nat, status: int, header: Fields, body: seq<bv8>)
    requires k in s.flights && s.flights[k].stage.Rechecking? && s.flights[k].leader == r && k !in s.entries
    requires r in s.requests && s.requests[r].key == k && s.requests[r].phase.Leading?
    requires s.requests[r].phase.flight == s.flights[k].id
    ensures var response, at := Response(if status == 0 then 200 else status, header, body), s.clock + d1 + d2;
            var t := Run(cfg, s, FromFlight(r, k, d1, d2, d3, status, header, body));
            && t.requests == s.requests[r := Request(k, Done(response))]
            && t.execs == s.execs + [Exec(k, at, response)]
            && t.entries == AfterRotation(s.entries, k, response, at, cfg.window)
            && t.emits == s.emits && t.hits == s.hits
  {
    hide Step, Run, AfterRotation;
    var a, b, c := [Tick(d1), Recheck(k), Tick(d2)], [SampleRotation(k), Tick(d3), Execute(k, status, header, body)],
                   [Store(k), Return(k), Wake(r)];
    RunAppend(cfg, s, a, b + c);
    MissesAgain(cfg, s, k, d1, d2);
    var s1 := Run(cfg, s, a);
    RunAppend(cfg, s1, b, c);
    Executes(cfg, s1, k, d3, status, header, body);
    Ends(cfg, Run(cfg, s1, b), r, k);
  }

  /**
   A request for a key with nothing live and no flight executes once. The rotation time is the clock
   just before the execution, what is logged, written and (if it is 2xx) stored for exactly the window is
   what the recorder reports, and no replay is reported.
   */
  lemma MissExecutes(cfg: Config, s: Sys, r: ReqId, k: Key, d0: nat, d1: nat, d2: nat, d3: nat,
                     status: int, header: Fields, body: seq<bv8>)
    requires cfg.recheck && r !in s.requests && k !in s.flights && !LiveAt(s.entries, k, s.clock)
    ensures var response, at := Response(if status == 0 then 200 else status, header, body), s.clock + d0 + d1 + d2;
            var t := Run(cfg, s, ToFlight(r, k, d0) + FromFlight(r, k, d1, d2, d3, status, header, body));
            && r in t.requests && t.requests[r] == Request(k, Done(response))
            && t.execs == s.execs + [Exec(k, at, response)]
            && t.entries == AfterRotation(s.entries - {k}, k, response, at, cfg.window)
            && t.emits == s.emits && t.hits == s.hits
  {
    hide Step, Run, ToFlight, FromFlight, AfterRotation;
    RunAppend(cfg, s, ToFlight(r, k, d0), FromFlight(r, k, d1, d2, d3, status, header, body));
    ReachesFlight(cfg, s, r, k, d0);
    LeavesFlight(cfg, Run(cfg, s, ToFlight(r, k, d0)), r, k, d1, d2, d3, status, header, body);
  }

  // A hit inside the flight ----------------------------------------------------------------------

  lemma SamplesAgain(cfg: Config, s: Sys, k: Key, d1: nat, d2: nat)
    requires cfg.recheck && k in s.flights && s.flights[k].stage.Entered?
    ensures Run(cfg, s, [Tick(d1), SampleRecheck(k), Tick(d2)]) ==
            AtStage(s, k, Rechecking(s.clock + d1)).(clock := s.clock + d1 + d2)
  {
    Safety.RunOfThree(cfg, s, [Tick(d1), SampleRecheck(k), Tick(d2)]);
  }

  lemma FindsInFlight(cfg: Config, s: Sys, r: ReqId, k: Key)
    requires k in s.flights && s.flights[k].stage.Rechecking? && s.flights[k].leader == r
    requires LiveAt(s.entries, k, s.flights[k].stage.at) && s.entries[k].response.status != 0
    requires r in s.requests && s.requests[r].key == k && s.requests[r].phase.Leading?
    requires s.requests[r].phase.flight == s.flights[k].id
    ensures var e := NextReplay(s.entries[k], s.flights[k].stage.at);
            var t := Run(cfg, s, [Recheck(k), Return(k), Wake(r)]);
            && t.requests == s.requests[r := Request(k, Hit(s.requests[r].phase.now, e))]
            && t.entries == s.entries[k := e] && t.execs == s.execs && t.emits == s.emits
            && t.hits == s.hits + [Audit(r, k, e)]
  {
    var actions := [Recheck(k), Return(k), Wake(r)];
    Safety.RunOfThree(cfg, s, actions);
    hide Run;
    var e := NextReplay(s.entries[k], s.flights[k].stage.at);
    var s1 := Step(cfg, s, actions[0]);
    assert s1.flights == s.flights[k := Flight(s.flights[k].id, r, Finished(Outcome(e, r, true)))] && s1.requests == s.requests;
    assert s1.entries == s.entries[k := e] && s1.execs == s.execs && s1.emits == s.emits && s1.hits == s.hits + [Audit(r, k, e)];
    hide DoRecheck, Lookup;
    var s2 := Step(cfg, s1, actions[1]);
    assert s2.outcomes[s.flights[k].id] == Outcome(e, r, true);
  }

  lemma Reports(cfg: Config, s: Sys, r: ReqId)
    requires r in s.requests && s.requests[r].phase.Hit?
    ensures var k, e := s.requests[r].key, s.requests[r].phase.snapshot;
            var t := Run(cfg, s, [Emit(r)]);
            && t.requests == s.requests[r := Request(k, Done(e.response))] && t.emits == s.emits + [Audit(r, k, e)]
            && t.entries == s.entries && t.execs == s.execs
  {
    assert [Emit(r)][1..] == [];
    assert Run(cfg, s, [Emit(r)]) == Run(cfg, Step(cfg, s, Emit(r)), []) == Step(cfg, s, Emit(r));
  }

  /** A leader whose second lookup, by a fresh clock sample, finds a live entry executes nothing: it writes that response and reports it. */
  lemma RecheckServes(cfg: Config, s: Sys, r: ReqId, k: Key, d1: nat, d2: nat)
    requires cfg.recheck && k in s.flights && s.flights[k].stage.Entered? && s.flights[k].leader == r
    requires LiveAt(s.entries, k, s.clock + d1) && s.entries[k].response.status != 0
    requires r in s.requests && s.requests[r].key == k && s.requests[r].phase.Leading?
    requires s.requests[r].phase.flight == s.flights[k].id
    ensures var e := NextReplay(s.entries[k], s.clock + d1);
            var t := Run(cfg, s, [Tick(d1), SampleRecheck(k), Tick(d2)] + ([Recheck(k), Return(k), Wake(r)] + [Emit(r)]));
            && r in t.requests && t.requests[r] == Request(k, Done(s.entries[k].response))
            && t.emits == s.emits + [Audit(r, k, e)] && t.entries == s.entries[k := e] && t.execs == s.execs
  {
    hide Step, Run;
    var a, b := [Tick(d1), SampleRecheck(k), Tick(d2)], [Recheck(k), Return(k), Wake(r)];
    RunAppend(cfg, s, a, b + [Emit(r)]);
    SamplesAgain(cfg, s, k, d1, d2);
    var s1 := Run(cfg, s, a);
    RunAppend(cfg, s1, b, [Emit(r)]);
    FindsInFlight(cfg, s1, r, k);
    Reports(cfg, Run(cfg, s1, b), r);
  }

  // A waiter -------------------------------------------------------------------------------------

  /** A waiter looks once more, by its own old clock sample: a hit is written and reported, else the flight's response is written. */
  lemma WaiterIsServed(cfg: Config, s: Sys, r: ReqId, d: nat)
    requires r in s.requests && s.requests[r].phase.PostFlight?
    ensures var k, now, shared := s.requests[r].key, s.requests[r].phase.now, s.requests[r].phase.shared;
            var t := Run(cfg, s, [Tick(d), SecondLookup(r), Emit(r)]);
            && r in t.requests && t.execs == s.execs
            && (LiveAt(s.entries, k, now) ==>
                  && t.requests[r] == Request(k, Done(s.entries[k].response))
                  && t.emits == s.emits + [Audit(r, k, NextReplay(s.entries[k], now))])
            && (!LiveAt(s.entries, k, now) ==>
                  t.requests[r] == Request(k, Done(shared.response.response)) && t.emits == s.emits && k !in t.entries)
  {
    var actions := [Tick(d), SecondLookup(r), Emit(r)];
    Safety.RunOfThree(cfg, s, actions);
    hide Run;
    var k, now, shared := s.requests[r].key, s.requests[r].phase.now, s.requests[r].phase.shared;
    var s1 := Step(cfg, s, actions[0]);
    var s2 := Step(cfg, s1, actions[1]);
    if LiveAt(s.entries, k, now) {
      assert s2.requests[r] == Request(k, Hit(now, NextReplay(s.entries[k], now))) && s2.emits == s.emits;
    } else {
      assert s2.requests[r] == Request(k, Done(shared.response.response)) && k !in s2.entries;
    }
    hide DoSecondLookup, Lookup;
  }

  /** A request that arrives while a flight for its key is running waits for it, and is woken with its outcome when it returns. */
  lemma JoinsAndWaits(cfg: Config, s: Sys, r: ReqId, k: Key)
    requires r !in s.requests && !LiveAt(s.entries, k, s.clock) && k in s.flights && s.flights[k].stage.Finished?
    requires s.flights[k].stage.outcome.owner != r && s.flights[k].stage.outcome.response.response.status != 0
    ensures var t := Run(cfg, s, [Arrive(r, k), Sample(r), FirstLookup(r)] + [EnterGroup(r), Return(k), Wake(r)]);
            && r in t.requests && t.requests[r] == Request(k, PostFlight(s.clock, s.flights[k].stage.outcome))
            && k !in t.flights && t.execs == s.execs && t.emits == s.emits
  {
    hide Run;
    RunAppend(cfg, s, [Arrive(r, k), Sample(r), FirstLookup(r)], [EnterGroup(r), Return(k), Wake(r)]);
    MissesFirst(cfg, s, r, k);
    var s1 := s.(requests := s.requests[r := Request(k, AtGroup(s.clock))], entries := s.entries - {k});
    var actions := [EnterGroup(r), Return(k), Wake(r)];
    Safety.RunOfThree(cfg, s1, actions);
    var s2 := Step(cfg, s1, actions[0]);
    assert s2 == AtPhase(s1, r, Waiting(s.clock, s.flights[k].id));
    var s3 := Step(cfg, s2, actions[1]);
    assert s3.requests == s2.requests && s3.outcomes[s.flights[k].id] == s.flights[k].stage.outcome;
  }
}
