/**
 Every response a request writes was produced by an execution for its own key, and no request is
 ever left with nothing it can do.
 */
module ReplayIntegrity {
  import opened ReplayCache
  import opened ReplayProtocol
  import Safety = ReplaySafety
  import Audits = ReplayAudit

  /** Some execution for k produced this response. */
  ghost predicate Produced(s: Sys, k: Key, response: Response) {
    exists at :: Exec(k, at, response) in s.execs
  }

  ghost predicate RequestServed(s: Sys, r: ReqId)
    requires r in s.requests
  {
    var k := s.requests[r].key;
    match s.requests[r].phase
    case Leading(_, f) => f in s.outcomes ==> Produced(s, k, s.outcomes[f].response.response)
    case Waiting(_, f) => f in s.outcomes ==> Produced(s, k, s.outcomes[f].response.response)
    case PostFlight(_, shared) => Produced(s, k, shared.response.response)
    case Hit(_, snapshot) => Produced(s, k, snapshot.response)
    case Done(written) => Produced(s, k, written)
    case _ => true
  }

  ghost predicate FlightServed(s: Sys, k: Key)
    requires k in s.flights
  {
    match s.flights[k].stage
    case Executed(_, response) => Produced(s, k, response)
    case Finished(outcome) => Produced(s, k, outcome.response.response)
    case _ => true
  }

  ghost predicate Inv(s: Sys) {
    && (forall r :: r in s.requests ==> RequestServed(s, r))
    && (forall k :: k in s.flights ==> FlightServed(s, k))
  }

  /** Entries come from executions, as the safety invariant says. */
  lemma LookupIsProduced(w: int, s: Sys, k: Key, now: Time)
    requires Safety.Inv(w, s) && Lookup(s.entries, k, now).hit.Some?
    ensures Produced(s, k, Lookup(s.entries, k, now).hit.value.response)
  {
  }

  /** Only the request that moved has to be looked at. */
  lemma PhaseKeepsInv(s: Sys, t: Sys, r: ReqId)
    requires Inv(s) && r in s.requests && r in t.requests
    requires t.requests == s.requests[r := t.requests[r]]
    requires t.flights == s.flights && t.outcomes == s.outcomes && t.execs == s.execs
    requires RequestServed(t, r)
    ensures Inv(t)
  {
  }

  lemma FirstLookupKeepsInv(w: int, s: Sys, r: ReqId)
    requires Inv(s) && Safety.Inv(w, s)
    ensures Inv(DoFirstLookup(s, r))
  {
  }

  lemma SecondLookupKeepsInv(w: int, s: Sys, r: ReqId)
    requires Inv(s) && Safety.Inv(w, s)
    ensures Inv(DoSecondLookup(s, r))
  {
    if r in s.requests && s.requests[r].phase.PostFlight? {
      var k, now := s.requests[r].key, s.requests[r].phase.now;
      if Lookup(s.entries, k, now).hit.Some? {
        LookupIsProduced(w, s, k, now);
      }
      assert RequestServed(s, r);
      hide Inv, Safety.Inv;
      PhaseKeepsInv(s, DoSecondLookup(s, r), r);
    }
  }

  lemma RecheckKeepsInv(w: int, s: Sys, k: Key)
    requires Inv(s) && Safety.Inv(w, s)
    ensures Inv(DoRecheck(s, k))
  {
  }

  lemma ExecuteKeepsInv(s: Sys, k: Key, response: Response)
    requires Inv(s)
    ensures Inv(DoExecute(s, k, response))
  {
  }

  lemma ReturnKeepsInv(s: Sys, k: Key)
    requires Inv(s) && Audits.Inv(s)
    ensures Inv(DoReturn(s, k))
  {
    if k in s.flights && s.flights[k].stage.Finished? {
      var t := DoReturn(s, k);
      forall r | r in t.requests
        ensures RequestServed(t, r)
      {
        assert RequestServed(s, r) && Audits.RequestSound(s, r);
        assert FlightServed(s, k) && Audits.FlightSound(s, k);
      }
    }
  }

  lemma WakeKeepsInv(s: Sys, r: ReqId)
    requires Inv(s) && Audits.StatusesWritten(s)
    ensures Inv(DoWake(s, r))
  {
  }

  lemma OtherStepKeepsInv(s: Sys, r: ReqId)
    requires Inv(s)
    ensures Inv(DoSample(s, r)) && Inv(DoEmit(s, r))
  {
  }

  lemma ArriveKeepsInv(s: Sys, r: ReqId, k: Key)
    requires Inv(s)
    ensures Inv(DoArrive(s, r, k))
  {
  }

  lemma EnterGroupKeepsInv(s: Sys, r: ReqId)
    requires Inv(s) && Audits.Inv(s)
    ensures Inv(DoEnterGroup(s, r))
  {
    if r in s.requests && s.requests[r].phase.AtGroup? {
      var t := DoEnterGroup(s, r);
      assert t.requests[r].phase.flight !in s.outcomes by {
        if s.requests[r].key in s.flights {
          assert Audits.FlightSound(s, s.requests[r].key);
        }
      }
      hide Audits.Inv, Audits.FlightSound;
      forall q | q in t.requests
        ensures RequestServed(t, q)
      {
        assert RequestServed(s, q);
      }
      forall k | k in t.flights
        ensures FlightServed(t, k)
      {
        assert k in s.flights ==> FlightServed(s, k);
      }
    }
  }

  lemma StageStepKeepsInv(cfg: Config, s: Sys, a: Action)
    requires Inv(s) && (a.Tick? || a.SampleRecheck? || a.SampleRotation? || a.Store?)
    ensures Inv(Step(cfg, s, a))
  {
  }

  lemma StepKeepsInv(cfg: Config, s: Sys, a: Action)
    requires Inv(s) && Safety.Inv(cfg.window, s) && Audits.Inv(s) && Audits.StatusesWritten(s)
    ensures Inv(Step(cfg, s, a))
  {
    hide Inv, Safety.Inv, Audits.Inv, Audits.StatusesWritten;
    hide DoArrive, DoSample, DoFirstLookup, DoEnterGroup, DoRecheck, DoExecute, DoReturn, DoWake, DoSecondLookup, DoEmit;
    match a
    case FirstLookup(r) => FirstLookupKeepsInv(cfg.window, s, r);
    case SecondLookup(r) => SecondLookupKeepsInv(cfg.window, s, r);
    case Recheck(k) => RecheckKeepsInv(cfg.window, s, k);
    case Execute(k, status, header, body) => ExecuteKeepsInv(s, k, Response(RecordedStatus(status), header, body));
    case Return(k) => ReturnKeepsInv(s, k);
    case Wake(r) => WakeKeepsInv(s, r);
    case Arrive(r, k) => ArriveKeepsInv(s, r, k);
    case Sample(r) => OtherStepKeepsInv(s, r);
    case EnterGroup(r) => EnterGroupKeepsInv(s, r);
    case Emit(r) => OtherStepKeepsInv(s, r);
    case _ => StageStepKeepsInv(cfg, s, a);
  }

  lemma {:induction false} RunKeepsInv(cfg: Config, s: Sys, actions: seq<Action>)
    requires cfg.recheck
    requires Inv(s) && Safety.Inv(cfg.window, s) && Audits.Inv(s) && Audits.StatusesWritten(s)
    ensures Inv(Run(cfg, s, actions))
    decreases |actions|
  {
    hide Inv, Safety.Inv, Audits.Inv, Audits.StatusesWritten;
    if actions != [] {
      StepKeepsInv(cfg, s, actions[0]);
      Safety.StepKeepsInv(cfg, s, actions[0]);
      Audits.StepKeepsInv(cfg, s, actions[0]);
      RunKeepsInv(cfg, Step(cfg, s, actions[0]), actions[1..]);
    }
  }

  // ---------------------------------------------------------------------------------------------
  // Main results
  // ---------------------------------------------------------------------------------------------

  /** No flight ever publishes the zero status, so no request falls back to "token exchange failed". */
  lemma FallbackIsNeverTaken(cfg: Config, s0: Sys, actions: seq<Action>)
    requires Init(s0)
    ensures forall f :: f in Run(cfg, s0, actions).outcomes ==>
                          Run(cfg, s0, actions).outcomes[f].response.response.status != 0
  {
    Audits.RunKeepsInv(cfg, s0, actions);
  }

  /** A finished request wrote the response of some execution for its key. */
  lemma WrittenResponsesWereExecuted(cfg: Config, s0: Sys, actions: seq<Action>, r: ReqId)
    requires cfg.recheck && Init(s0)
    requires r in Run(cfg, s0, actions).requests && Run(cfg, s0, actions).requests[r].phase.Done?
    ensures var s := Run(cfg, s0, actions);
            exists at :: Exec(s.requests[r].key, at, s.requests[r].phase.written) in s.execs
  {
    RunKeepsInv(cfg, s0, actions);
    assert RequestServed(Run(cfg, s0, actions), r);
  }

  /** Every report is of the response that its request has written. */
  ghost predicate Reported(s: Sys) {
    forall h :: h in s.emits ==> h.req in s.requests && s.requests[h.req] == Request(h.key, Done(h.entry.response))
  }

  /** No step but Emit touches the reports, and none touches a finished request. */
  lemma FinishedIsFinal(cfg: Config, s: Sys, a: Action)
    ensures var t := Step(cfg, s, a);
            && (!a.Emit? ==> t.emits == s.emits)
            && forall r :: r in s.requests && s.requests[r].phase.Done? ==> r in t.requests && t.requests[r] == s.requests[r]
  {
    hide Lookup, Put;
  }

  lemma StepKeepsReported(cfg: Config, s: Sys, a: Action)
    requires Reported(s)
    ensures Reported(Step(cfg, s, a))
  {
    FinishedIsFinal(cfg, s, a);
    if !a.Emit? {
      hide Step;
    }
  }

  lemma {:induction false} RunKeepsReported(cfg: Config, s: Sys, actions: seq<Action>)
    requires Reported(s)
    ensures Reported(Run(cfg, s, actions))
    decreases |actions|
  {
    hide Reported, Step;
    if actions != [] {
      StepKeepsReported(cfg, s, actions[0]);
      RunKeepsReported(cfg, Step(cfg, s, actions[0]), actions[1..]);
    }
  }

  /** A request that reports a replay has written exactly the response that it reports, for its own key. */
  lemma ReportedIsWritten(cfg: Config, s0: Sys, actions: seq<Action>, h: Audit)
    requires Init(s0) && h in Run(cfg, s0, actions).emits
    ensures var s := Run(cfg, s0, actions);
            h.req in s.requests && s.requests[h.req] == Request(h.key, Done(h.entry.response))
  {
    RunKeepsReported(cfg, s0, actions);
  }

  /** Steps still to go, for a request that has not finished. */
  function Remaining(s: Sys, r: ReqId): nat
    requires r in s.requests
  {
    var k := s.requests[r].key;
    match s.requests[r].phase
    case Arrived => 12
    case Sampled(_) => 11
    case AtGroup(_) => 10
    case PostFlight(_, _) => 2
    case Hit(_, _) => 1
    case Done(_) => 0
    case _ =>
      if s.requests[r].phase.flight in s.outcomes then 3
      else if k !in s.flights then 3
      else match s.flights[k].stage
      case Entered => 9
      case Rechecking(_) => 8
      case Missed => 7
      case Rotating(_) => 6
      case Executed(_, _) => 5
      case Finished(_) => 4
  }

  /** The next action towards finishing r. */
  function NextAction(s: Sys, r: ReqId): Action
    requires r in s.requests
  {
    var k := s.requests[r].key;
    match s.requests[r].phase
    case Arrived => Sample(r)
    case Sampled(_) => FirstLookup(r)
    case AtGroup(_) => EnterGroup(r)
    case PostFlight(_, _) => SecondLookup(r)
    case Hit(_, _) => Emit(r)
    case Done(_) => Tick(0)
    case _ =>
      if s.requests[r].phase.flight in s.outcomes || k !in s.flights then Wake(r)
      else match s.flights[k].stage
      case Entered => SampleRecheck(k)
      case Rechecking(_) => Recheck(k)
      case Missed => SampleRotation(k)
      case Rotating(_) => Execute(k, 200, map[], [])
      case Executed(_, _) => Store(k)
      case Finished(_) => Return(k)
  }

  lemma FlightActionAdvances(cfg: Config, s: Sys, r: ReqId)
    requires r in s.requests && (s.requests[r].phase.Leading? || s.requests[r].phase.Waiting?)
    requires s.requests[r].phase.flight !in s.outcomes
    requires s.requests[r].key in s.flights && s.flights[s.requests[r].key].id == s.requests[r].phase.flight
    ensures var t := Step(cfg, s, NextAction(s, r));
            r in t.requests && Remaining(t, r) < Remaining(s, r)
  {
    hide DoArrive, DoSample, DoFirstLookup, DoEnterGroup, DoWake, DoSecondLookup, DoEmit, Put, Lookup;
    var k := s.requests[r].key;
    var a := NextAction(s, r);
    match s.flights[k].stage
    case Entered => assert a == SampleRecheck(k);
    case Rechecking(_) => assert a == Recheck(k);
    case Missed => assert a == SampleRotation(k);
    case Rotating(_) => assert a == Execute(k, 200, map[], []);
    case Executed(_, _) => assert a == Store(k);
    case Finished(_) => assert a == Return(k);
  }

  lemma OwnActionAdvances(cfg: Config, s: Sys, r: ReqId)
    requires r in s.requests && !s.requests[r].phase.Done?
    requires s.requests[r].key in s.flights ==> s.flights[s.requests[r].key].id !in s.outcomes
    requires s.nextFlight !in s.outcomes
    requires s.requests[r].phase.Leading? || s.requests[r].phase.Waiting? ==> s.requests[r].phase.flight in s.outcomes
    ensures var t := Step(cfg, s, NextAction(s, r));
            r in t.requests && Remaining(t, r) < Remaining(s, r)
  {
    hide DoSampleRecheck, DoRecheck, DoSampleRotation, DoExecute, DoStore, DoReturn, Lookup;
  }

  lemma NextActionAdvances(cfg: Config, s: Sys, r: ReqId)
    requires Audits.Inv(s) && r in s.requests && !s.requests[r].phase.Done?
    ensures var t := Step(cfg, s, NextAction(s, r));
            r in t.requests && Remaining(t, r) < Remaining(s, r)
  {
    assert Audits.RequestSound(s, r);
    var k := s.requests[r].key;
    assert k in s.flights ==> s.flights[k].id !in s.outcomes by {
      assert k in s.flights ==> Audits.FlightSound(s, k);
    }
    assert s.nextFlight !in s.outcomes;
    hide Audits.Inv, Step, NextAction, Remaining;
    if (s.requests[r].phase.Leading? || s.requests[r].phase.Waiting?) && s.requests[r].phase.flight !in s.outcomes {
      FlightActionAdvances(cfg, s, r);
    } else {
      OwnActionAdvances(cfg, s, r);
    }
  }

  lemma {:induction false} RequestCanFinish(cfg: Config, s: Sys, r: ReqId) returns (actions: seq<Action>)
    requires Audits.Inv(s) && Audits.StatusesWritten(s) && r in s.requests
    ensures r in Run(cfg, s, actions).requests && Run(cfg, s, actions).requests[r].phase.Done?
    decreases Remaining(s, r)
  {
    if s.requests[r].phase.Done? {
      actions := [];
    } else {
      var a := NextAction(s, r);
      NextActionAdvances(cfg, s, r);
      Audits.StepKeepsInv(cfg, s, a);
      hide Audits.Inv, Audits.StatusesWritten, Step, NextAction, Remaining;
      var rest := RequestCanFinish(cfg, Step(cfg, s, a), r);
      actions := [a] + rest;
    }
  }

  /** Waiting never deadlocks: from every reachable state, every request can be brought to its end. */
  lemma NoRequestIsStuck(cfg: Config, s0: Sys, actions: seq<Action>, r: ReqId)
    requires Init(s0) && r in Run(cfg, s0, actions).requests
    ensures exists more ::
              var s := Run(cfg, s0, actions + more);
              r in s.requests && s.requests[r].phase.Done?
  {
    Audits.RunKeepsInv(cfg, s0, actions);
    hide Audits.Inv, Audits.StatusesWritten, Step;
    var more := RequestCanFinish(cfg, Run(cfg, s0, actions), r);
    RunAppend(cfg, s0, actions, more);
    assert Run(cfg, s0, actions + more).requests[r].phase.Done?;
  }
}
