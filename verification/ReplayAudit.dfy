/**
 Conservation of the "replayed" audit events: each successful lookup is reported once, by the
 request that made it, and the reports of one rotation count 1, 2, ..., n.
 */
module ReplayAudit {
  import opened ReplayCache
  import opened ReplayProtocol
  import Safety = ReplaySafety

  ghost predicate Unhit(s: Sys, r: ReqId) {
    forall h :: h in s.hits ==> h.req != r
  }

  ghost predicate Unreported(s: Sys, r: ReqId) {
    forall h :: h in s.emits ==> h.req != r
  }

  /** What the leader of a flight knows once the closure has a result. */
  ghost predicate OutcomeSound(s: Sys, r: ReqId, k: Key, o: Outcome) {
    && o.owner == r
    && (if o.isReplay then Audit(r, k, o.response) in s.hits else Unhit(s, r))
  }

  ghost predicate FlightSound(s: Sys, k: Key)
    requires k in s.flights
  {
    var f := s.flights[k];
    && f.id < s.nextFlight && f.id !in s.outcomes
    && f.leader in s.requests && s.requests[f.leader].key == k
    && s.requests[f.leader].phase.Leading? && s.requests[f.leader].phase.flight == f.id
    && (if f.stage.Finished? then OutcomeSound(s, f.leader, k, f.stage.outcome) else Unhit(s, f.leader))
  }

  ghost predicate RequestSound(s: Sys, r: ReqId)
    requires r in s.requests
  {
    var k := s.requests[r].key;
    match s.requests[r].phase
    case Leading(_, f) =>
      && Unreported(s, r)
      && ((k in s.flights && s.flights[k].id == f && s.flights[k].leader == r) ||
          (f in s.outcomes && OutcomeSound(s, r, k, s.outcomes[f])))
    case Waiting(_, f) =>
      && Unreported(s, r) && Unhit(s, r)
      && ((k in s.flights && s.flights[k].id == f) || (f in s.outcomes && s.outcomes[f].owner != r))
    case Hit(_, snapshot) => Unreported(s, r) && Audit(r, k, snapshot) in s.hits
    case Done(_) => forall h :: h in s.hits && h.req == r ==> h in s.emits
    case _ => Unreported(s, r) && Unhit(s, r)
  }

  /** No request appears twice in a log. */
  ghost predicate OncePerRequest(log: seq<Audit>) {
    forall i, j :: 0 <= i < j < |log| ==> log[i].req != log[j].req
  }

  /** No response in the system has the zero status. */
  ghost predicate StatusesWritten(s: Sys) {
    && (forall k :: k in s.entries ==> s.entries[k].response.status != 0)
    && (forall k :: k in s.flights && s.flights[k].stage.Executed? ==> s.flights[k].stage.response.status != 0)
    && (forall k :: k in s.flights && s.flights[k].stage.Finished? ==>
                      s.flights[k].stage.outcome.response.response.status != 0)
    && (forall f :: f in s.outcomes ==> s.outcomes[f].response.response.status != 0)
  }

  ghost predicate Inv(s: Sys) {
    && (forall k1, k2 :: k1 in s.flights && k2 in s.flights && s.flights[k1].id == s.flights[k2].id ==> k1 == k2)
    && (forall k :: k in s.flights ==> FlightSound(s, k))
    && (forall f :: f in s.outcomes ==> f < s.nextFlight)
    && (forall r :: r in s.requests ==> RequestSound(s, r))
    && (forall h :: h in s.hits ==> h.req in s.requests)
    && (forall h :: h in s.emits ==> h in s.hits)
    && OncePerRequest(s.hits) && OncePerRequest(s.emits)
  }

  /** Only the actions of a flight and lookups touch what StatusesWritten speaks of. */
  lemma ExecuteKeepsStatuses(cfg: Config, s: Sys, k: Key, response: Response)
    requires StatusesWritten(s) && response.status != 0
    ensures StatusesWritten(DoExecute(s, k, response)) && StatusesWritten(DoStore(cfg, s, k))
  {
  }

  lemma SampleKeepsStatuses(cfg: Config, s: Sys, k: Key)
    requires StatusesWritten(s)
    ensures StatusesWritten(DoSampleRecheck(cfg, s, k)) && StatusesWritten(DoSampleRotation(s, k))
  {
  }

  lemma RecheckKeepsStatuses(s: Sys, k: Key)
    requires StatusesWritten(s)
    ensures StatusesWritten(DoRecheck(s, k)) && StatusesWritten(DoReturn(s, k))
  {
  }

  lemma RequestKeepsStatuses(s: Sys, r: ReqId)
    requires StatusesWritten(s)
    ensures StatusesWritten(DoFirstLookup(s, r)) && StatusesWritten(DoSecondLookup(s, r))
    ensures StatusesWritten(DoEnterGroup(s, r))
  {
  }

  lemma StatusesFrame(s: Sys, t: Sys)
    requires StatusesWritten(s) && t.entries == s.entries && t.flights == s.flights && t.outcomes == s.outcomes
    ensures StatusesWritten(t)
  {
  }

  lemma StepKeepsStatuses(cfg: Config, s: Sys, a: Action)
    requires StatusesWritten(s)
    ensures StatusesWritten(Step(cfg, s, a))
  {
    hide StatusesWritten, DoFirstLookup, DoEnterGroup, DoSampleRecheck, DoRecheck, DoSampleRotation;
    hide DoExecute, DoStore, DoReturn, DoSecondLookup;
    match a
    case FirstLookup(r) => RequestKeepsStatuses(s, r);
    case SecondLookup(r) => RequestKeepsStatuses(s, r);
    case EnterGroup(r) => RequestKeepsStatuses(s, r);
    case Recheck(k) => RecheckKeepsStatuses(s, k);
    case Return(k) => RecheckKeepsStatuses(s, k);
    case Execute(k, status, header, body) => ExecuteKeepsStatuses(cfg, s, k, Response(RecordedStatus(status), header, body));
    case SampleRecheck(k) => SampleKeepsStatuses(cfg, s, k);
    case SampleRotation(k) => SampleKeepsStatuses(cfg, s, k);
    case Store(k) => ExecuteKeepsStatuses(cfg, s, k, TOKEN_EXCHANGE_FAILED);
    case _ => StatusesFrame(s, Step(cfg, s, a));
  }

  /** Only these parts of the state matter here. */
  lemma InvFrame(s: Sys, t: Sys)
    requires Inv(s) && t.flights == s.flights && t.outcomes == s.outcomes && t.nextFlight == s.nextFlight
    requires t.requests == s.requests && t.hits == s.hits && t.emits == s.emits
    ensures Inv(t)
  {
  }

  lemma TickKeepsInv(s: Sys, delta: nat)
    requires Inv(s)
    ensures Inv(s.(clock := s.clock + delta))
  {
    hide Inv;
    InvFrame(s, s.(clock := s.clock + delta));
  }

  lemma ArriveKeepsInv(s: Sys, r: ReqId, k: Key)
    requires Inv(s)
    ensures Inv(DoArrive(s, r, k))
  {
  }

  /** A log that grew at most by an entry of r. */
  ghost predicate GrowsBy(before: seq<Audit>, after: seq<Audit>, r: ReqId) {
    after == before || (|after| == |before| + 1 && after[..|before|] == before && after[|before|].req == r)
  }

  lemma GrownLog(before: seq<Audit>, after: seq<Audit>, r: ReqId)
    requires GrowsBy(before, after, r)
    ensures forall h :: h in before ==> h in after
    ensures forall h :: h in after ==> h in before || (after != before && h == after[|before|])
    ensures forall h :: h in after && h.req != r ==> h in before
    ensures OncePerRequest(before) && (after == before || forall h :: h in before ==> h.req != r) ==> OncePerRequest(after)
  {
  }

  lemma OthersUntouched(s: Sys, t: Sys, r: ReqId, q: ReqId)
    requires q in s.requests && q in t.requests && q != r && t.requests[q] == s.requests[q]
    requires t.flights == s.flights && t.outcomes == s.outcomes
    requires GrowsBy(s.hits, t.hits, r) && GrowsBy(s.emits, t.emits, r)
    requires RequestSound(s, q)
    ensures RequestSound(t, q)
  {
  }

  lemma FlightsUntouched(s: Sys, t: Sys, r: ReqId, k: Key)
    requires k in s.flights && FlightSound(s, k) && s.flights[k].leader != r
    requires t.flights == s.flights && t.outcomes == s.outcomes && t.nextFlight == s.nextFlight
    requires forall q :: q in s.requests && q != r ==> q in t.requests && t.requests[q] == s.requests[q]
    requires GrowsBy(s.hits, t.hits, r)
    ensures FlightSound(t, k)
  {
  }

  /** A request that leads no running flight moves on; it may log a lookup or a report of its own. */
  lemma MoveKeepsInv(s: Sys, t: Sys, r: ReqId)
    requires Inv(s) && r in s.requests && r in t.requests && RequestSound(t, r)
    requires t.requests == s.requests[r := t.requests[r]]
    requires t.flights == s.flights && t.outcomes == s.outcomes && t.nextFlight == s.nextFlight
    requires forall k :: k in s.flights ==> s.flights[k].leader != r
    requires GrowsBy(s.hits, t.hits, r) && (t.hits != s.hits ==> Unhit(s, r))
    requires GrowsBy(s.emits, t.emits, r) && (t.emits != s.emits ==> Unreported(s, r) && t.emits[|s.emits|] in t.hits)
    ensures Inv(t)
  {
    hide RequestSound, FlightSound;
    forall q | q in t.requests
      ensures RequestSound(t, q)
    {
      if q != r {
        OthersUntouched(s, t, r, q);
      }
    }
    forall k | k in t.flights
      ensures FlightSound(t, k)
    {
      FlightsUntouched(s, t, r, k);
    }
    GrownLog(s.hits, t.hits, r);
    GrownLog(s.emits, t.emits, r);
    hide OncePerRequest, GrowsBy;
  }

  /** Facts about a request that is not leading. */
  lemma FollowerFacts(s: Sys, r: ReqId)
    requires Inv(s) && r in s.requests && !s.requests[r].phase.Leading?
    ensures RequestSound(s, r) && forall k :: k in s.flights ==> s.flights[k].leader != r
  {
  }

  lemma SampleKeepsInv(s: Sys, r: ReqId)
    requires Inv(s)
    ensures Inv(DoSample(s, r))
  {
    hide Inv;
    if r in s.requests && s.requests[r].phase.Arrived? {
      FollowerFacts(s, r);
      MoveKeepsInv(s, DoSample(s, r), r);
    }
  }

  lemma FirstLookupKeepsInv(s: Sys, r: ReqId)
    requires Inv(s)
    ensures Inv(DoFirstLookup(s, r))
  {
    hide Inv, Lookup;
    if r in s.requests && s.requests[r].phase.Sampled? {
      FollowerFacts(s, r);
      MoveKeepsInv(s, DoFirstLookup(s, r), r);
    }
  }

  lemma SecondLookupKeepsInv(s: Sys, r: ReqId)
    requires Inv(s)
    ensures Inv(DoSecondLookup(s, r))
  {
    hide Inv, Lookup;
    if r in s.requests && s.requests[r].phase.PostFlight? {
      FollowerFacts(s, r);
      MoveKeepsInv(s, DoSecondLookup(s, r), r);
    }
  }

  lemma EmitKeepsInv(s: Sys, r: ReqId)
    requires Inv(s)
    ensures Inv(DoEmit(s, r))
  {
    if r in s.requests && s.requests[r].phase.Hit? {
      FollowerFacts(s, r);
      assert forall h :: h in s.hits && h.req == r ==> h == Audit(r, s.requests[r].key, s.requests[r].phase.snapshot);
      hide Inv;
      MoveKeepsInv(s, DoEmit(s, r), r);
    }
  }

  /** Facts about a request that Wake will move. */
  lemma WokenFacts(s: Sys, r: ReqId)
    requires Inv(s) && r in s.requests && (s.requests[r].phase.Leading? || s.requests[r].phase.Waiting?)
    requires s.requests[r].phase.flight in s.outcomes
    ensures RequestSound(s, r) && forall k :: k in s.flights ==> s.flights[k].leader != r
    ensures var o := s.outcomes[s.requests[r].phase.flight];
            if s.requests[r].phase.Leading? then OutcomeSound(s, r, s.requests[r].key, o) else o.owner != r && Unhit(s, r)
  {
  }

  lemma WakeKeepsInv(s: Sys, r: ReqId)
    requires Inv(s) && StatusesWritten(s)
    ensures Inv(DoWake(s, r))
  {
    hide Inv;
    if r in s.requests && (s.requests[r].phase.Leading? || s.requests[r].phase.Waiting?)
       && s.requests[r].phase.flight in s.outcomes {
      WokenFacts(s, r);
      MoveKeepsInv(s, DoWake(s, r), r);
    }
  }

  lemma JoinKeepsInv(s: Sys, r: ReqId)
    requires Inv(s)
    requires r in s.requests && s.requests[r].phase.AtGroup? && s.requests[r].key in s.flights
    ensures Inv(AtPhase(s, r, Waiting(s.requests[r].phase.now, s.flights[s.requests[r].key].id)))
  {
    hide Inv;
    FollowerFacts(s, r);
    MoveKeepsInv(s, AtPhase(s, r, Waiting(s.requests[r].phase.now, s.flights[s.requests[r].key].id)), r);
  }

  lemma LeadKeepsRequest(s: Sys, r: ReqId, q: ReqId)
    requires r in s.requests && s.requests[r].phase.AtGroup? && s.requests[r].key !in s.flights
    requires q in s.requests && RequestSound(s, q)
    ensures RequestSound(DoEnterGroup(s, r), q)
  {
  }

  lemma LeadKeepsFlight(s: Sys, r: ReqId, k: Key)
    requires r in s.requests && s.requests[r].phase.AtGroup? && s.requests[r].key !in s.flights
    requires k in s.flights && FlightSound(s, k)
    ensures FlightSound(DoEnterGroup(s, r), k) && s.flights[k].id < s.nextFlight
  {
  }

  lemma LeadStartsFlight(s: Sys, r: ReqId)
    requires r in s.requests && s.requests[r].phase.AtGroup? && s.requests[r].key !in s.flights
    requires RequestSound(s, r) && s.nextFlight !in s.outcomes
    ensures FlightSound(DoEnterGroup(s, r), s.requests[r].key)
  {
  }

  lemma LeadKeepsInv(s: Sys, r: ReqId)
    requires Inv(s)
    requires r in s.requests && s.requests[r].phase.AtGroup? && s.requests[r].key !in s.flights
    ensures Inv(DoEnterGroup(s, r))
  {
    hide FlightSound, RequestSound, OncePerRequest;
    var t, k := DoEnterGroup(s, r), s.requests[r].key;
    LeadStartsFlight(s, r);
    forall j | j in t.flights
      ensures FlightSound(t, j) && (j in s.flights ==> s.flights[j].id < s.nextFlight)
    {
      if j != k {
        LeadKeepsFlight(s, r, j);
      }
    }
    forall q | q in t.requests
      ensures RequestSound(t, q)
    {
      LeadKeepsRequest(s, r, q);
    }
  }

  lemma EnterGroupKeepsInv(s: Sys, r: ReqId)
    requires Inv(s)
    ensures Inv(DoEnterGroup(s, r))
  {
    hide Inv;
    if r in s.requests && s.requests[r].phase.AtGroup? {
      if s.requests[r].key in s.flights {
        JoinKeepsInv(s, r);
      } else {
        LeadKeepsInv(s, r);
      }
    }
  }

  /** A closure moving to another stage concerns only its leader. */
  lemma StageKeepsInv(s: Sys, t: Sys, k: Key)
    requires Inv(s)
    requires k in s.flights && !s.flights[k].stage.Finished? && k in t.flights
    requires t.flights == s.flights[k := s.flights[k].(stage := t.flights[k].stage)]
    requires t.requests == s.requests && t.outcomes == s.outcomes && t.nextFlight == s.nextFlight
    requires t.hits == s.hits && t.emits == s.emits
    requires t.flights[k].stage.Finished? ==> OutcomeSound(t, t.flights[k].leader, k, t.flights[k].stage.outcome)
    ensures Inv(t)
  {
    forall j | j in t.flights
      ensures FlightSound(t, j)
    {
      assert FlightSound(s, j);
    }
    forall q | q in t.requests
      ensures RequestSound(t, q)
    {
      assert RequestSound(s, q);
    }
  }

  lemma LeaderIsUnhit(s: Sys, k: Key)
    requires Inv(s) && k in s.flights && !s.flights[k].stage.Finished?
    ensures Unhit(s, s.flights[k].leader)
  {
  }

  lemma FlightStepKeepsInv(cfg: Config, s: Sys, k: Key, response: Response)
    requires Inv(s)
    ensures Inv(DoSampleRecheck(cfg, s, k)) && Inv(DoSampleRotation(s, k))
    ensures Inv(DoExecute(s, k, response)) && Inv(DoStore(cfg, s, k))
  {
    hide Inv;
    if k in s.flights {
      match s.flights[k].stage
      case Entered => StageKeepsInv(s, DoSampleRecheck(cfg, s, k), k);
      case Missed => StageKeepsInv(s, DoSampleRotation(s, k), k);
      case Rotating(_) => StageKeepsInv(s, DoExecute(s, k, response), k);
      case Executed(_, _) =>
        LeaderIsUnhit(s, k);
        StageKeepsInv(s, DoStore(cfg, s, k), k);
      case _ =>
    }
  }

  /** The state after a lookup inside the flight of k found e. */
  function FoundInFlight(s: Sys, k: Key, e: Entry): Sys
    requires k in s.flights
  {
    var leader := s.flights[k].leader;
    AtStage(s, k, Finished(Outcome(e, leader, true))).(hits := s.hits + [Audit(leader, k, e)])
  }

  lemma FoundKeepsRequest(s: Sys, k: Key, e: Entry, q: ReqId)
    requires k in s.flights && FlightSound(s, k) && q in s.requests && RequestSound(s, q)
    requires q != s.flights[k].leader
    ensures RequestSound(FoundInFlight(s, k, e), q)
  {
  }

  lemma FoundKeepsFlight(s: Sys, k: Key, e: Entry, j: Key)
    requires k in s.flights && FlightSound(s, k) && j in s.flights && FlightSound(s, j)
    ensures FlightSound(FoundInFlight(s, k, e), j)
  {
  }

  lemma FoundKeepsLeader(s: Sys, k: Key, e: Entry)
    requires Inv(s) && k in s.flights
    ensures s.flights[k].leader in s.requests && RequestSound(FoundInFlight(s, k, e), s.flights[k].leader)
  {
    assert FlightSound(s, k) && RequestSound(s, s.flights[k].leader);
    hide Inv, OncePerRequest;
  }

  /** A lookup on behalf of the leader, from inside the flight. */
  lemma LeaderLookupKeepsInv(s: Sys, k: Key, e: Entry)
    requires Inv(s) && k in s.flights && !s.flights[k].stage.Finished?
    ensures Inv(FoundInFlight(s, k, e))
  {
    hide FlightSound, RequestSound;
    var t, leader := FoundInFlight(s, k, e), s.flights[k].leader;
    LeaderIsUnhit(s, k);
    LeaderArrived(s, k);
    FoundKeepsLeader(s, k, e);
    forall j | j in t.flights
      ensures FlightSound(t, j)
    {
      FoundKeepsFlight(s, k, e, j);
    }
    forall q | q in t.requests
      ensures RequestSound(t, q)
    {
      if q != leader {
        FoundKeepsRequest(s, k, e, q);
      }
    }
    GrownLog(s.hits, t.hits, leader);
    hide OncePerRequest, GrowsBy;
  }

  lemma LeaderArrived(s: Sys, k: Key)
    requires k in s.flights && FlightSound(s, k)
    ensures s.flights[k].leader in s.requests && s.requests[s.flights[k].leader].key == k
  {
  }

  lemma ReturnKeepsRequest(s: Sys, k: Key, q: ReqId)
    requires Inv(s) && k in s.flights && s.flights[k].stage.Finished? && q in s.requests
    ensures RequestSound(DoReturn(s, k), q)
  {
  }

  lemma ReturnKeepsInv(s: Sys, k: Key)
    requires Inv(s)
    ensures Inv(DoReturn(s, k))
  {
    if k in s.flights && s.flights[k].stage.Finished? {
      var t := DoReturn(s, k);
      assert FlightSound(s, k);
      forall j | j in t.flights
        ensures FlightSound(t, j)
      {
        assert FlightSound(s, j);
      }
      hide FlightSound, RequestSound, OncePerRequest;
      forall q | q in t.requests
        ensures RequestSound(t, q)
      {
        ReturnKeepsRequest(s, k, q);
      }
    }
  }

  lemma RecheckKeepsInv(s: Sys, k: Key)
    requires Inv(s)
    ensures Inv(DoRecheck(s, k))
  {
    hide Inv;
    if k in s.flights && s.flights[k].stage.Rechecking? {
      var found := Lookup(s.entries, k, s.flights[k].stage.at);
      var mid := s.(entries := found.entries);
      EntriesAreFree(s, found.entries);
      if found.hit.Some? {
        LeaderLookupKeepsInv(mid, k, found.hit.value);
        InvFrame(FoundInFlight(mid, k, found.hit.value), DoRecheck(s, k));
      } else {
        StageKeepsInv(mid, DoRecheck(s, k), k);
      }
    }
  }

  lemma EntriesAreFree(s: Sys, entries: map<Key, Entry>)
    requires Inv(s)
    ensures Inv(s.(entries := entries))
  {
  }

  lemma StepKeepsInv(cfg: Config, s: Sys, a: Action)
    requires Inv(s) && StatusesWritten(s)
    ensures Inv(Step(cfg, s, a)) && StatusesWritten(Step(cfg, s, a))
  {
    hide Inv, StatusesWritten, DoArrive, DoSample, DoFirstLookup, DoEnterGroup, DoSampleRecheck, DoRecheck;
    hide DoSampleRotation, DoExecute, DoStore, DoReturn, DoWake, DoSecondLookup, DoEmit;
    StepKeepsStatuses(cfg, s, a);
    match a
    case Tick(delta) => TickKeepsInv(s, delta);
    case Arrive(r, k) => ArriveKeepsInv(s, r, k);
    case Sample(r) => SampleKeepsInv(s, r);
    case FirstLookup(r) => FirstLookupKeepsInv(s, r);
    case EnterGroup(r) => EnterGroupKeepsInv(s, r);
    case Recheck(k) => RecheckKeepsInv(s, k);
    case Return(k) => ReturnKeepsInv(s, k);
    case Wake(r) => WakeKeepsInv(s, r);
    case SecondLookup(r) => SecondLookupKeepsInv(s, r);
    case Emit(r) => EmitKeepsInv(s, r);
    case Execute(k, status, header, body) => FlightStepKeepsInv(cfg, s, k, Response(RecordedStatus(status), header, body));
    case SampleRecheck(k) => FlightStepKeepsInv(cfg, s, k, TOKEN_EXCHANGE_FAILED);
    case SampleRotation(k) => FlightStepKeepsInv(cfg, s, k, TOKEN_EXCHANGE_FAILED);
    case Store(k) => FlightStepKeepsInv(cfg, s, k, TOKEN_EXCHANGE_FAILED);
  }

  lemma {:induction false} RunKeepsInv(cfg: Config, s: Sys, actions: seq<Action>)
    requires Inv(s) && StatusesWritten(s)
    ensures Inv(Run(cfg, s, actions)) && StatusesWritten(Run(cfg, s, actions))
    decreases |actions|
  {
    hide Inv, StatusesWritten;
    if actions != [] {
      StepKeepsInv(cfg, s, actions[0]);
      RunKeepsInv(cfg, Step(cfg, s, actions[0]), actions[1..]);
    }
  }

  // ---------------------------------------------------------------------------------------------
  // The keys of lookups
  // ---------------------------------------------------------------------------------------------

  /** A request looks up nothing but its own key. */
  ghost predicate Keyed(s: Sys) {
    forall h :: h in s.hits ==> h.req in s.requests && s.requests[h.req].key == h.key
  }

  lemma KeyedFrame(s: Sys, t: Sys)
    requires Keyed(s) && t.hits == s.hits
    requires forall r :: r in s.requests ==> r in t.requests && t.requests[r].key == s.requests[r].key
    ensures Keyed(t)
  {
  }

  lemma LookupKeepsKeyed(s: Sys, r: ReqId, k: Key, now: Time)
    requires Keyed(s) && r in s.requests && s.requests[r].key == k
    ensures Keyed(LookupBy(s, r, k, now))
  {
  }

  lemma RequestLookupKeepsKeyed(s: Sys, r: ReqId)
    requires Keyed(s)
    ensures Keyed(DoFirstLookup(s, r)) && Keyed(DoSecondLookup(s, r))
  {
    hide Keyed, Lookup;
    if r in s.requests && (s.requests[r].phase.Sampled? || s.requests[r].phase.PostFlight?) {
      var k, now := s.requests[r].key, s.requests[r].phase.now;
      LookupKeepsKeyed(s, r, k, now);
      KeyedFrame(LookupBy(s, r, k, now), if s.requests[r].phase.Sampled? then DoFirstLookup(s, r) else DoSecondLookup(s, r));
    }
  }

  lemma RecheckKeepsKeyed(s: Sys, k: Key)
    requires Inv(s) && Keyed(s)
    ensures Keyed(DoRecheck(s, k))
  {
    if k in s.flights && s.flights[k].stage.Rechecking? {
      LeaderArrived(s, k);
      hide Inv, Keyed, Lookup;
      LookupKeepsKeyed(s, s.flights[k].leader, k, s.flights[k].stage.at);
      KeyedFrame(LookupBy(s, s.flights[k].leader, k, s.flights[k].stage.at), DoRecheck(s, k));
    }
  }

  lemma ArriveKeepsKeyed(s: Sys, r: ReqId, k: Key)
    requires Keyed(s)
    ensures Keyed(DoArrive(s, r, k)) && Keyed(DoSample(s, r))
  {
    hide Keyed;
    KeyedFrame(s, DoArrive(s, r, k));
    KeyedFrame(s, DoSample(s, r));
  }

  lemma EnterGroupKeepsKeyed(s: Sys, r: ReqId)
    requires Keyed(s)
    ensures Keyed(DoEnterGroup(s, r))
  {
    hide Keyed;
    KeyedFrame(s, DoEnterGroup(s, r));
  }

  lemma WakeKeepsKeyed(s: Sys, r: ReqId)
    requires Keyed(s)
    ensures Keyed(DoWake(s, r)) && Keyed(DoEmit(s, r))
  {
    hide Keyed;
    KeyedFrame(s, DoWake(s, r));
    KeyedFrame(s, DoEmit(s, r));
  }

  lemma StepKeepsKeyed(cfg: Config, s: Sys, a: Action)
    requires Inv(s) && Keyed(s)
    ensures Keyed(Step(cfg, s, a))
  {
    hide Inv, Keyed, DoFirstLookup, DoSecondLookup, DoRecheck, DoArrive, DoSample, DoEnterGroup, DoWake, DoEmit, Put;
    match a
    case FirstLookup(r) => RequestLookupKeepsKeyed(s, r);
    case SecondLookup(r) => RequestLookupKeepsKeyed(s, r);
    case Recheck(k) => RecheckKeepsKeyed(s, k);
    case Arrive(r, k) => ArriveKeepsKeyed(s, r, k);
    case Sample(r) => ArriveKeepsKeyed(s, r, "");
    case EnterGroup(r) => EnterGroupKeepsKeyed(s, r);
    case Wake(r) => WakeKeepsKeyed(s, r);
    case Emit(r) => WakeKeepsKeyed(s, r);
    case _ => KeyedFrame(s, Step(cfg, s, a));
  }

  lemma {:induction false} RunKeepsKeyed(cfg: Config, s: Sys, actions: seq<Action>)
    requires Inv(s) && StatusesWritten(s) && Keyed(s)
    ensures Keyed(Run(cfg, s, actions))
    decreases |actions|
  {
    hide Inv, StatusesWritten, Keyed, Step;
    if actions != [] {
      StepKeepsInv(cfg, s, actions[0]);
      StepKeepsKeyed(cfg, s, actions[0]);
      RunKeepsKeyed(cfg, Step(cfg, s, actions[0]), actions[1..]);
    }
  }

  // ---------------------------------------------------------------------------------------------
  // The counts of one rotation
  // ---------------------------------------------------------------------------------------------

  /** The replay counts a log gives for the rotation of k at time at, in order. */
  function Counts(log: seq<Audit>, k: Key, at: Time): seq<nat> {
    if log == [] then []
    else
      var h := log[|log| - 1];
      Counts(log[..|log| - 1], k, at) +
      if h.key == k && h.entry.rotatedAt == at then [h.entry.replayCount] else []
  }

  /** 1, 2, ..., n */
  function UpTo(n: nat): seq<nat> {
    seq(n, i => i + 1)
  }

  ghost predicate SameFirst(log: seq<Audit>) {
    forall g, h :: g in log && h in log && g.key == h.key && g.entry.rotatedAt == h.entry.rotatedAt ==>
      g.entry.firstReplayAt == h.entry.firstReplayAt
  }

  /** The log agrees with the counters that entry e of key k carries. */
  ghost predicate EntryCounted(log: seq<Audit>, k: Key, e: Entry) {
    && Counts(log, k, e.rotatedAt) == UpTo(e.replayCount)
    && (e.firstReplayAt == 0 <==> e.replayCount == 0)
    && (forall h :: h in log && h.key == k && h.entry.rotatedAt == e.rotatedAt ==>
          h.entry.firstReplayAt == e.firstReplayAt != 0)
  }

  ghost predicate Counted(s: Sys) {
    && (forall k, at :: Counts(s.hits, k, at) == UpTo(|Counts(s.hits, k, at)|))
    && (forall k :: k in s.entries ==> EntryCounted(s.hits, k, s.entries[k]))
    && SameFirst(s.hits)
  }

  lemma {:induction false} NoCounts(log: seq<Audit>, k: Key, at: Time)
    requires forall h :: h in log && h.key == k ==> h.entry.rotatedAt != at
    ensures Counts(log, k, at) == []
  {
    if log != [] {
      assert log[|log| - 1] in log;
      assert forall h :: h in log[..|log| - 1] ==> h in log;
      NoCounts(log[..|log| - 1], k, at);
    }
  }

  /** One more entry in a log adds its count at the end, if it is of that rotation. */
  lemma CountsGrow(log: seq<Audit>, h: Audit, k: Key, at: Time)
    ensures Counts(log + [h], k, at) ==
            Counts(log, k, at) + if h.key == k && h.entry.rotatedAt == at then [h.entry.replayCount] else []
  {
  }

  lemma TouchKeepsEntry(log: seq<Audit>, r: ReqId, k: Key, e: Entry, now: Time)
    requires now > 0 && EntryCounted(log, k, e)
    ensures EntryCounted(log + [Audit(r, k, Touched(e, now))], k, Touched(e, now))
  {
  }

  lemma OtherKeepsEntry(log: seq<Audit>, h: Audit, k: Key, e: Entry)
    requires EntryCounted(log, k, e) && h.key != k
    ensures EntryCounted(log + [h], k, e)
  {
  }

  lemma EntryIsCounted(s: Sys, k: Key)
    requires Counted(s) && k in s.entries
    ensures EntryCounted(s.hits, k, s.entries[k])
  {
  }

  lemma LogIsCounted(s: Sys, k: Key, at: Time)
    requires Counted(s)
    ensures Counts(s.hits, k, at) == UpTo(|Counts(s.hits, k, at)|)
  {
  }

  lemma HitKeepsCounts(s: Sys, r: ReqId, k: Key, now: Time, j: Key, at: Time)
    requires Counted(s) && Lookup(s.entries, k, now).hit.Some?
    ensures var counts := Counts(LookupBy(s, r, k, now).hits, j, at); counts == UpTo(|counts|)
  {
    hide Counted, Counts;
    CountsGrow(s.hits, Audit(r, k, Touched(s.entries[k], now)), j, at);
    LogIsCounted(s, j, at);
    EntryIsCounted(s, k);
  }

  lemma HitKeepsFirst(s: Sys, r: ReqId, k: Key, now: Time)
    requires Lookup(s.entries, k, now).hit.Some? && EntryCounted(s.hits, k, s.entries[k]) && SameFirst(s.hits)
    ensures SameFirst(LookupBy(s, r, k, now).hits)
  {
  }

  lemma LookupKeepsCounted(s: Sys, r: ReqId, k: Key, now: Time)
    requires Counted(s) && now > 0
    ensures Counted(LookupBy(s, r, k, now))
  {
    var t := LookupBy(s, r, k, now);
    if Lookup(s.entries, k, now).hit.Some? {
      hide EntryCounted, SameFirst;
      HitKeepsFirst(s, r, k, now);
      forall j, at
        ensures Counts(t.hits, j, at) == UpTo(|Counts(t.hits, j, at)|)
      {
        HitKeepsCounts(s, r, k, now, j, at);
      }
      forall j | j in t.entries
        ensures EntryCounted(t.hits, j, t.entries[j])
      {
        if j == k {
          TouchKeepsEntry(s.hits, r, k, s.entries[k], now);
        } else {
          OtherKeepsEntry(s.hits, Audit(r, k, Touched(s.entries[k], now)), j, s.entries[j]);
        }
      }
    } else {
      hide SameFirst;
      forall j | j in t.entries
        ensures EntryCounted(t.hits, j, t.entries[j])
      {
        assert EntryCounted(s.hits, j, s.entries[j]);
      }
    }
  }

  lemma StoreKeepsCounted(cfg: Config, s: Sys, k: Key)
    requires Counted(s) && Safety.Inv(cfg.window, s) && cfg.window > 0
    ensures Counted(DoStore(cfg, s, k))
  {
    var t := DoStore(cfg, s, k);
    if k in s.flights && s.flights[k].stage.Executed? {
      var at := s.flights[k].stage.at;
      assert Safety.StageSound(cfg.window, s, k);
      // Every earlier rotation of k was at least a window ago.
      NoCounts(s.hits, k, at);
      forall j | j in t.entries
        ensures EntryCounted(t.hits, j, t.entries[j])
      {
        assert j in s.entries ==> EntryCounted(s.hits, j, s.entries[j]);
      }
    }
  }

  lemma SamplesArePositive(w: int, s: Sys)
    requires Safety.Inv(w, s)
    ensures forall r :: r in s.requests && (s.requests[r].phase.Sampled? || s.requests[r].phase.PostFlight?) ==>
                          s.requests[r].phase.now > 0
    ensures forall k :: k in s.flights && s.flights[k].stage.Rechecking? ==> s.flights[k].stage.at > 0
  {
  }

  lemma CountedFrame(s: Sys, t: Sys)
    requires Counted(s) && t.entries == s.entries && t.hits == s.hits
    ensures Counted(t)
  {
  }

  lemma RequestLookupKeepsCounted(w: int, s: Sys, r: ReqId)
    requires Counted(s) && Safety.Inv(w, s)
    ensures Counted(DoFirstLookup(s, r)) && Counted(DoSecondLookup(s, r))
  {
    SamplesArePositive(w, s);
    hide Counted, Safety.Inv, Lookup;
    if r in s.requests && (s.requests[r].phase.Sampled? || s.requests[r].phase.PostFlight?) {
      var mid := LookupBy(s, r, s.requests[r].key, s.requests[r].phase.now);
      LookupKeepsCounted(s, r, s.requests[r].key, s.requests[r].phase.now);
      CountedFrame(mid, if s.requests[r].phase.Sampled? then DoFirstLookup(s, r) else DoSecondLookup(s, r));
    }
  }

  lemma RecheckKeepsCounted(w: int, s: Sys, k: Key)
    requires Counted(s) && Safety.Inv(w, s)
    ensures Counted(DoRecheck(s, k))
  {
    SamplesArePositive(w, s);
    hide Counted, Safety.Inv, Lookup;
    if k in s.flights && s.flights[k].stage.Rechecking? {
      LookupKeepsCounted(s, s.flights[k].leader, k, s.flights[k].stage.at);
      CountedFrame(LookupBy(s, s.flights[k].leader, k, s.flights[k].stage.at), DoRecheck(s, k));
    }
  }

  lemma StepKeepsCounted(cfg: Config, s: Sys, a: Action)
    requires Counted(s) && Safety.Inv(cfg.window, s) && cfg.window > 0
    ensures Counted(Step(cfg, s, a))
  {
    hide Counted, Safety.Inv, DoFirstLookup, DoSecondLookup, DoRecheck, DoStore;
    match a
    case FirstLookup(r) => RequestLookupKeepsCounted(cfg.window, s, r);
    case SecondLookup(r) => RequestLookupKeepsCounted(cfg.window, s, r);
    case Recheck(k) => RecheckKeepsCounted(cfg.window, s, k);
    case Store(k) => StoreKeepsCounted(cfg, s, k);
    case _ => CountedFrame(s, Step(cfg, s, a));
  }

  lemma {:induction false} RunKeepsCounted(cfg: Config, s: Sys, actions: seq<Action>)
    requires cfg.recheck && cfg.window > 0 && Counted(s) && Safety.Inv(cfg.window, s)
    ensures Counted(Run(cfg, s, actions))
    decreases |actions|
  {
    if actions != [] {
      StepKeepsCounted(cfg, s, actions[0]);
      Safety.StepKeepsInv(cfg, s, actions[0]);
      RunKeepsCounted(cfg, Step(cfg, s, actions[0]), actions[1..]);
    }
  }

  // ---------------------------------------------------------------------------------------------
  // The first lookup of one rotation
  // ---------------------------------------------------------------------------------------------

  /** The lookup with count 1 of the rotation that e is of was made at the time e remembers. */
  ghost predicate FirstKnown(s: Sys, k: Key, e: Entry) {
    exists l :: l in s.looks && l.audit.key == k && l.audit.entry.rotatedAt == e.rotatedAt &&
                l.audit.entry.replayCount == 1 && l.at == e.firstReplayAt
  }

  ghost predicate Firsts(s: Sys) {
    && (forall k :: k in s.entries && s.entries[k].replayCount > 0 ==> FirstKnown(s, k, s.entries[k]))
    && (forall h :: h in s.hits ==> FirstKnown(s, h.key, h.entry))
    && (forall l :: l in s.looks ==> l.audit in s.hits)
  }

  lemma FirstStays(s: Sys, t: Sys, k: Key, e: Entry)
    requires FirstKnown(s, k, e) && forall l :: l in s.looks ==> l in t.looks
    ensures FirstKnown(t, k, e)
  {
  }

  /** The entry that a lookup leaves has its first lookup in the log: this one, or the one that was there. */
  lemma HitKnowsFirst(s: Sys, r: ReqId, k: Key, now: Time)
    requires Lookup(s.entries, k, now).hit.Some? && EntryCounted(s.hits, k, s.entries[k])
    requires s.entries[k].replayCount > 0 ==> FirstKnown(s, k, s.entries[k])
    ensures FirstKnown(LookupBy(s, r, k, now), k, Touched(s.entries[k], now))
  {
    hide Counts;
    var t, e := LookupBy(s, r, k, now), Touched(s.entries[k], now);
    var l := Look(Audit(r, k, e), now);
    assert t.looks == s.looks + [l] && l in t.looks;
    if s.entries[k].replayCount > 0 {
      FirstStays(s, t, k, s.entries[k]);
    }
  }

  /** One more lookup, whose own first lookup is known. */
  lemma OneMoreLook(s: Sys, t: Sys, k: Key, l: Look)
    requires Firsts(s) && t.looks == s.looks + [l] && t.hits == s.hits + [l.audit] && l.audit.key == k
    requires t.entries == s.entries[k := l.audit.entry] && FirstKnown(t, k, l.audit.entry)
    ensures Firsts(t)
  {
    hide FirstKnown;
    forall j | j in t.entries && t.entries[j].replayCount > 0
      ensures FirstKnown(t, j, t.entries[j])
    {
      if j != k {
        FirstStays(s, t, j, s.entries[j]);
      }
    }
    forall h | h in t.hits
      ensures FirstKnown(t, h.key, h.entry)
    {
      if h in s.hits {
        FirstStays(s, t, h.key, h.entry);
      }
    }
  }

  lemma LookupKeepsFirsts(s: Sys, r: ReqId, k: Key, now: Time)
    requires Firsts(s) && Counted(s)
    ensures Firsts(LookupBy(s, r, k, now))
  {
    hide Counted, EntryCounted, FirstKnown;
    var t := LookupBy(s, r, k, now);
    if Lookup(s.entries, k, now).hit.Some? {
      EntryIsCounted(s, k);
      HitKnowsFirst(s, r, k, now);
      hide Firsts;
      OneMoreLook(s, t, k, Look(Audit(r, k, Touched(s.entries[k], now)), now));
    } else {
      hide Firsts;
      FirstsFrame(s, t);
    }
  }

  lemma FirstsFrame(s: Sys, t: Sys)
    requires Firsts(s) && t.hits == s.hits && t.looks == s.looks
    requires forall k :: k in t.entries && t.entries[k].replayCount > 0 ==> k in s.entries && t.entries[k] == s.entries[k]
    ensures Firsts(t)
  {
    forall k | k in t.entries && t.entries[k].replayCount > 0
      ensures FirstKnown(t, k, t.entries[k])
    {
      FirstStays(s, t, k, s.entries[k]);
    }
    forall h | h in t.hits
      ensures FirstKnown(t, h.key, h.entry)
    {
      FirstStays(s, t, h.key, h.entry);
    }
  }

  lemma RequestLookupKeepsFirsts(s: Sys, r: ReqId)
    requires Firsts(s) && Counted(s)
    ensures Firsts(DoFirstLookup(s, r)) && Firsts(DoSecondLookup(s, r))
  {
    hide Firsts, Counted, Lookup;
    if r in s.requests && (s.requests[r].phase.Sampled? || s.requests[r].phase.PostFlight?) {
      var mid := LookupBy(s, r, s.requests[r].key, s.requests[r].phase.now);
      LookupKeepsFirsts(s, r, s.requests[r].key, s.requests[r].phase.now);
      FirstsFrame(mid, if s.requests[r].phase.Sampled? then DoFirstLookup(s, r) else DoSecondLookup(s, r));
    }
  }

  lemma RecheckKeepsFirsts(s: Sys, k: Key)
    requires Firsts(s) && Counted(s)
    ensures Firsts(DoRecheck(s, k))
  {
    hide Firsts, Counted, Lookup;
    if k in s.flights && s.flights[k].stage.Rechecking? {
      LookupKeepsFirsts(s, s.flights[k].leader, k, s.flights[k].stage.at);
      FirstsFrame(LookupBy(s, s.flights[k].leader, k, s.flights[k].stage.at), DoRecheck(s, k));
    }
  }

  lemma StepKeepsFirsts(cfg: Config, s: Sys, a: Action)
    requires Firsts(s) && Counted(s)
    ensures Firsts(Step(cfg, s, a))
  {
    hide Firsts, Counted, DoFirstLookup, DoSecondLookup, DoRecheck;
    match a
    case FirstLookup(r) => RequestLookupKeepsFirsts(s, r);
    case SecondLookup(r) => RequestLookupKeepsFirsts(s, r);
    case Recheck(k) => RecheckKeepsFirsts(s, k);
    case _ => FirstsFrame(s, Step(cfg, s, a));
  }

  lemma {:induction false} RunKeepsFirsts(cfg: Config, s: Sys, actions: seq<Action>)
    requires cfg.recheck && cfg.window > 0 && Firsts(s) && Counted(s) && Safety.Inv(cfg.window, s)
    ensures Firsts(Run(cfg, s, actions))
    decreases |actions|
  {
    hide Firsts, Counted, Safety.Inv, Step;
    if actions != [] {
      StepKeepsFirsts(cfg, s, actions[0]);
      StepKeepsCounted(cfg, s, actions[0]);
      Safety.StepKeepsInv(cfg, s, actions[0]);
      RunKeepsFirsts(cfg, Step(cfg, s, actions[0]), actions[1..]);
    }
  }

  // ---------------------------------------------------------------------------------------------
  // Main results
  // ---------------------------------------------------------------------------------------------

  /** Every request for k has written its response. */
  predicate QuietFor(s: Sys, k: Key) {
    forall r :: r in s.requests && s.requests[r].key == k ==> s.requests[r].phase.Done?
  }

  /** The part of a log that concerns k. */
  function OfKey(log: seq<Audit>, k: Key): seq<Audit> {
    if log == [] then []
    else OfKey(log[..|log| - 1], k) + if log[|log| - 1].key == k then [log[|log| - 1]] else []
  }

  lemma {:induction false} OfKeyCounts(log: seq<Audit>, k: Key, h: Audit)
    ensures multiset(OfKey(log, k))[h] == if h.key == k then multiset(log)[h] else 0
  {
    if log != [] {
      OfKeyCounts(log[..|log| - 1], k, h);
      assert log == log[..|log| - 1] + [log[|log| - 1]];
    }
  }

  lemma {:induction false} CountsOfKey(log: seq<Audit>, k: Key, at: Time)
    ensures Counts(OfKey(log, k), k, at) == Counts(log, k, at)
  {
    if log != [] {
      var front, last := log[..|log| - 1], log[|log| - 1];
      CountsOfKey(front, k, at);
      if last.key == k {
        CountsGrow(OfKey(front, k), last, k, at);
      } else {
        assert OfKey(log, k) == OfKey(front, k);
      }
    }
  }

  lemma {:induction false} DistinctMembers(log: seq<Audit>)
    requires OncePerRequest(log)
    ensures forall h :: h in log ==> multiset(log)[h] == 1
  {
    if log != [] {
      var front, last := log[..|log| - 1], log[|log| - 1];
      assert log == front + [last];
      DistinctMembers(front);
      assert last !in front;
    }
  }

  /** In every interleaving, no request looks up successfully twice or reports twice. */
  lemma AtMostOneReportPerRequest(cfg: Config, s0: Sys, actions: seq<Action>)
    requires Init(s0)
    ensures OncePerRequest(Run(cfg, s0, actions).hits) && OncePerRequest(Run(cfg, s0, actions).emits)
  {
    RunKeepsInv(cfg, s0, actions);
  }

  /** In every reachable state a successful lookup is the request's own, and it has been reported exactly if the request is done. */
  lemma ReportedIffFinished(cfg: Config, s0: Sys, actions: seq<Action>, h: Audit)
    requires Init(s0) && h in Run(cfg, s0, actions).hits
    ensures var s := Run(cfg, s0, actions);
            && h.req in s.requests && s.requests[h.req].key == h.key
            && (h in s.emits <==> s.requests[h.req].phase.Done?)
  {
    RunKeepsInv(cfg, s0, actions);
    RunKeepsKeyed(cfg, s0, actions);
    assert RequestSound(Run(cfg, s0, actions), h.req);
  }

  /** A finished request has reported a replay exactly if one of its lookups hit. */
  lemma ReportsIffHit(cfg: Config, s0: Sys, actions: seq<Action>, r: ReqId)
    requires Init(s0) && r in Run(cfg, s0, actions).requests && Run(cfg, s0, actions).requests[r].phase.Done?
    ensures var s := Run(cfg, s0, actions);
            (exists h :: h in s.emits && h.req == r) <==> (exists h :: h in s.hits && h.req == r)
  {
    RunKeepsInv(cfg, s0, actions);
    assert RequestSound(Run(cfg, s0, actions), r);
  }

  /** When every request for k has finished, the events reported for k are exactly the successful lookups of k. */
  lemma ReportsAreTheLookups(cfg: Config, s0: Sys, actions: seq<Action>, k: Key)
    requires Init(s0) && QuietFor(Run(cfg, s0, actions), k)
    ensures multiset(OfKey(Run(cfg, s0, actions).emits, k)) == multiset(OfKey(Run(cfg, s0, actions).hits, k))
    ensures |OfKey(Run(cfg, s0, actions).emits, k)| == |OfKey(Run(cfg, s0, actions).hits, k)|
  {
    var s := Run(cfg, s0, actions);
    OncePerRequestInRuns(cfg, s0, actions);
    DistinctMembers(s.hits);
    DistinctMembers(s.emits);
    hide Run, OfKey, OncePerRequest;
    forall h
      ensures multiset(OfKey(s.emits, k))[h] == multiset(OfKey(s.hits, k))[h]
    {
      OfKeyCounts(s.emits, k, h);
      OfKeyCounts(s.hits, k, h);
      if h in s.hits {
        ReportedIffFinished(cfg, s0, actions, h);
      }
    }
    var reported, found := OfKey(s.emits, k), OfKey(s.hits, k);
    assert |reported| == |multiset(reported)| && |found| == |multiset(found)|;
  }

  lemma OncePerRequestInRuns(cfg: Config, s0: Sys, actions: seq<Action>)
    requires Init(s0)
    ensures var s := Run(cfg, s0, actions);
            OncePerRequest(s.hits) && OncePerRequest(s.emits) && forall h :: h in s.emits ==> h in s.hits
  {
    RunKeepsInv(cfg, s0, actions);
  }

  function CountOf(h: Audit, k: Key, at: Time): multiset<nat> {
    if h.key == k && h.entry.rotatedAt == at then multiset{h.entry.replayCount} else multiset{}
  }

  lemma CountsWithout(b: seq<Audit>, i: nat, k: Key, at: Time)
    requires i < |b|
    ensures multiset(Counts(b, k, at)) == multiset(Counts(b[..i] + b[i + 1..], k, at)) + CountOf(b[i], k, at)
    ensures multiset(b[..i] + b[i + 1..]) == multiset(b) - multiset{b[i]}
  {
    var x, y := b[..i], b[i + 1..];
    assert b == x + ([b[i]] + y);
    CountsConcat(x, [b[i]] + y, k, at);
    CountsConcat([b[i]], y, k, at);
    CountsConcat(x, y, k, at);
    assert [b[i]][..0] == [];
    assert multiset(Counts([b[i]], k, at)) == CountOf(b[i], k, at);
  }

  /** Counts looks at a log only through its multiset. */
  lemma {:induction false} CountsOfPermutation(a: seq<Audit>, b: seq<Audit>, k: Key, at: Time)
    requires multiset(a) == multiset(b)
    ensures multiset(Counts(a, k, at)) == multiset(Counts(b, k, at))
    decreases |a|
  {
    if b == [] {
      assert |multiset(a)| == |a|;
    } else {
      hide Counts, CountOf;
      var j := |b| - 1;
      assert b[j] in multiset(a);
      var i :| 0 <= i < |a| && a[i] == b[j];
      CountsWithout(a, i, k, at);
      CountsWithout(b, j, k, at);
      CountsOfPermutation(a[..i] + a[i + 1..], b[..j] + b[j + 1..], k, at);
    }
  }

  lemma {:induction false} CountsConcat(a: seq<Audit>, b: seq<Audit>, k: Key, at: Time)
    ensures Counts(a + b, k, at) == Counts(a, k, at) + Counts(b, k, at)
    decreases |b|
  {
    if b == [] {
      assert a + b == a;
    } else {
      assert (a + b)[..|a + b| - 1] == a + b[..|b| - 1];
      CountsConcat(a, b[..|b| - 1], k, at);
    }
  }

  /**
   When every request for k has finished, the counts reported for one rotation are 1..n, each once. In
   every reachable state, all reports of one rotation carry the same first replay time.
   */
  lemma ReportsOfOneRotation(cfg: Config, s0: Sys, actions: seq<Action>, k: Key, at: Time)
    requires cfg.recheck && cfg.window > 0 && Init(s0)
    ensures var counts := Counts(Run(cfg, s0, actions).emits, k, at);
            QuietFor(Run(cfg, s0, actions), k) ==> multiset(counts) == multiset(UpTo(|counts|))
    ensures SameFirst(Run(cfg, s0, actions).emits)
  {
    var s := Run(cfg, s0, actions);
    OncePerRequestInRuns(cfg, s0, actions);
    RunKeepsCounted(cfg, s0, actions);
    assert Counts(s.hits, k, at) == UpTo(|Counts(s.hits, k, at)|);
    if QuietFor(s, k) {
      ReportsAreTheLookups(cfg, s0, actions, k);
      CountsOfPermutation(OfKey(s.emits, k), OfKey(s.hits, k), k, at);
      CountsOfKey(s.emits, k, at);
      CountsOfKey(s.hits, k, at);
      hide Run, Counts, OfKey, QuietFor;
      assert |multiset(Counts(s.emits, k, at))| == |Counts(s.emits, k, at)|;
      assert |multiset(Counts(s.hits, k, at))| == |Counts(s.hits, k, at)|;
    }
  }

  /**
   In every reachable state, the first replay time that a lookup, and so a report, carries is the clock
   sample of the lookup of the same rotation that has count 1.
   */
  lemma FirstReplayIsTheFirstLookup(cfg: Config, s0: Sys, actions: seq<Action>, h: Audit)
    requires cfg.recheck && cfg.window > 0 && Init(s0)
    requires h in Run(cfg, s0, actions).hits || h in Run(cfg, s0, actions).emits
    ensures exists l :: l in Run(cfg, s0, actions).looks && l.audit in Run(cfg, s0, actions).hits &&
                        l.audit.key == h.key && l.audit.entry.rotatedAt == h.entry.rotatedAt &&
                        l.audit.entry.replayCount == 1 && l.at == h.entry.firstReplayAt
  {
    OncePerRequestInRuns(cfg, s0, actions);
    RunKeepsFirsts(cfg, s0, actions);
    assert FirstKnown(Run(cfg, s0, actions), h.key, h.entry);
  }

  /** In every reachable state, the next lookup of a live entry gives the next count, and the first one its own time. */
  lemma NextLookupCounts(cfg: Config, s0: Sys, actions: seq<Action>, k: Key, now: Time)
    requires cfg.recheck && cfg.window > 0 && Init(s0)
    requires k in Run(cfg, s0, actions).entries && now < Run(cfg, s0, actions).entries[k].expiresAt
    ensures var e, found := Run(cfg, s0, actions).entries[k], Lookup(Run(cfg, s0, actions).entries, k, now);
            && found.hit.Some? && found.hit.value.replayCount == e.replayCount + 1
            && found.hit.value.firstReplayAt == if e.replayCount == 0 then now else e.firstReplayAt
  {
    RunKeepsCounted(cfg, s0, actions);
    var s := Run(cfg, s0, actions);
    assert EntryCounted(s.hits, k, s.entries[k]);
  }
}
