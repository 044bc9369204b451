/**
 handleReplayableRefresh (oauth/handlers.go) as a machine of interleaved atomic steps, for any
 number of requests and any number of keys.

 An action that is not enabled leaves the state alone, so every list of actions is a run and every
 interleaving is a list of actions.
 */
module ReplayProtocol {
  import opened ReplayCache

  type ReqId = nat

  /** `recheck` is the lookup inside the flight; the program always does it. */
  datatype Config = Config(window: int, recheck: bool)

  /** What the closure of a flight returns: a response, its owner and whether it came from the cache. */
  datatype Outcome = Outcome(response: Entry, owner: ReqId, isReplay: bool)

  /** Where the closure of a flight is. */
  datatype Stage =
    | Entered
    | Rechecking(at: Time)
    | Missed
    | Rotating(at: Time)
    | Executed(at: Time, response: Response)
    | Finished(outcome: Outcome)

  datatype Flight = Flight(id: nat, leader: ReqId, stage: Stage)

  /** Where a request is. `now` is the clock sample taken before the first lookup. */
  datatype Phase =
    | Arrived
    | Sampled(now: Time)
    | AtGroup(now: Time)
    | Leading(now: Time, flight: nat)
    | Waiting(now: Time, flight: nat)
    | PostFlight(now: Time, shared: Outcome)
    | Hit(now: Time, snapshot: Entry)
    | Done(written: Response)

  datatype Request = Request(key: Key, phase: Phase)

  /** One execution of the token request. */
  datatype Exec = Exec(key: Key, rotatedAt: Time, response: Response)

  /** A successful lookup by a request, and also the "replayed" audit event that reports it. */
  datatype Audit = Audit(req: ReqId, key: Key, entry: Entry)

  /** A successful lookup together with the clock sample it was made with. */
  datatype Look = Look(audit: Audit, at: Time)

  datatype Sys = Sys(
    clock: Time,
    entries: map<Key, Entry>,
    flights: map<Key, Flight>,
    outcomes: map<nat, Outcome>,
    nextFlight: nat,
    requests: map<ReqId, Request>,
    execs: seq<Exec>,
    hits: seq<Audit>,
    emits: seq<Audit>,
    looks: seq<Look>)

  datatype Action =
    | Tick(delta: nat)
    | Arrive(req: ReqId, key: Key)
    | Sample(req: ReqId)
    | FirstLookup(req: ReqId)
    | EnterGroup(req: ReqId)
    | SampleRecheck(key: Key)
    | Recheck(key: Key)
    | SampleRotation(key: Key)
    | Execute(key: Key, status: int, header: Fields, body: seq<bv8>)
    | Store(key: Key)
    | Return(key: Key)
    | Wake(req: ReqId)
    | SecondLookup(req: ReqId)
    | Emit(req: ReqId)

  /** The program starts with an empty cache, no flight and no request, after the zero instant. */
  predicate Init(s: Sys) {
    && s.clock > 0
    && s.entries == map[] && s.flights == map[] && s.outcomes == map[]
    && s.requests == map[] && s.execs == [] && s.hits == [] && s.emits == [] && s.looks == []
  }

  const TOKEN_EXCHANGE_FAILED := Response(500, map[], [])

  function AtPhase(s: Sys, r: ReqId, phase: Phase): Sys
    requires r in s.requests
  {
    s.(requests := s.requests[r := s.requests[r].(phase := phase)])
  }

  function AtStage(s: Sys, k: Key, stage: Stage): Sys
    requires k in s.flights
  {
    s.(flights := s.flights[k := s.flights[k].(stage := stage)])
  }

  /** One critical section of the cache, on behalf of request r. */
  function LookupBy(s: Sys, r: ReqId, k: Key, now: Time): Sys {
    var found := Lookup(s.entries, k, now);
    s.(entries := found.entries,
    hits := if found.hit.Some? then s.hits + [Audit(r, k, found.hit.value)] else s.hits,
    looks := if found.hit.Some? then s.looks + [Look(Audit(r, k, found.hit.value), now)] else s.looks)
  }

  function DoArrive(s: Sys, r: ReqId, k: Key): Sys {
    if r in s.requests then s else s.(requests := s.requests[r := Request(k, Arrived)])
  }

  function DoSample(s: Sys, r: ReqId): Sys {
    if r !in s.requests || !s.requests[r].phase.Arrived? then s else AtPhase(s, r, Sampled(s.clock))
  }

  function DoFirstLookup(s: Sys, r: ReqId): Sys {
    if r !in s.requests || !s.requests[r].phase.Sampled? then s else
    var k, now := s.requests[r].key, s.requests[r].phase.now;
    var found := Lookup(s.entries, k, now);
    AtPhase(LookupBy(s, r, k, now), r, if found.hit.Some? then Hit(now, found.hit.value) else AtGroup(now))
  }

  /** singleflight: one closure per key at a time; a caller leads it or waits for its result. */
  function DoEnterGroup(s: Sys, r: ReqId): Sys {
    if r !in s.requests || !s.requests[r].phase.AtGroup? then s else
    var k, now := s.requests[r].key, s.requests[r].phase.now;
    if k in s.flights then AtPhase(s, r, Waiting(now, s.flights[k].id)) else
    AtPhase(s, r, Leading(now, s.nextFlight)).(
    flights := s.flights[k := Flight(s.nextFlight, r, Entered)],
    nextFlight := s.nextFlight + 1)
  }

  function DoSampleRecheck(cfg: Config, s: Sys, k: Key): Sys {
    if k !in s.flights || !s.flights[k].stage.Entered? then s else
    AtStage(s, k, if cfg.recheck then Rechecking(s.clock) else Missed)
  }

  function DoRecheck(s: Sys, k: Key): Sys {
    if k !in s.flights || !s.flights[k].stage.Rechecking? then s else
    var flight := s.flights[k];
    var found := Lookup(s.entries, k, flight.stage.at);
    AtStage(LookupBy(s, flight.leader, k, flight.stage.at), k,
            if found.hit.Some? then Finished(Outcome(found.hit.value, flight.leader, true)) else Missed)
  }

  function DoSampleRotation(s: Sys, k: Key): Sys {
    if k !in s.flights || !s.flights[k].stage.Missed? then s else AtStage(s, k, Rotating(s.clock))
  }

  function DoExecute(s: Sys, k: Key, response: Response): Sys {
    if k !in s.flights || !s.flights[k].stage.Rotating? then s else
    var at := s.flights[k].stage.at;
    AtStage(s, k, Executed(at, response)).(execs := s.execs + [Exec(k, at, response)])
  }

  function DoStore(cfg: Config, s: Sys, k: Key): Sys {
    if k !in s.flights || !s.flights[k].stage.Executed? then s else
    var flight := s.flights[k];
    AtStage(s, k, Finished(Outcome(Entry(flight.stage.response, 0, 0, 0, 0), flight.leader, false))).(
    entries := Put(s.entries, k, flight.stage.response, flight.stage.at, cfg.window))
  }

  /** The flight ends: its result is published and the key is free in one critical section. */
  function DoReturn(s: Sys, k: Key): Sys {
    if k !in s.flights || !s.flights[k].stage.Finished? then s else
    s.(flights := s.flights - {k}, outcomes := s.outcomes[s.flights[k].id := s.flights[k].stage.outcome])
  }

  function DoWake(s: Sys, r: ReqId): Sys {
    if r !in s.requests || !(s.requests[r].phase.Leading? || s.requests[r].phase.Waiting?) then s else
    var phase := s.requests[r].phase;
    if phase.flight !in s.outcomes then s else
    var outcome := s.outcomes[phase.flight];
    AtPhase(s, r,
            if outcome.response.response.status == 0 then Done(TOKEN_EXCHANGE_FAILED)
            else if outcome.owner != r then PostFlight(phase.now, outcome)
            else if outcome.isReplay then Hit(phase.now, outcome.response)
            else Done(outcome.response.response))
  }

  function DoSecondLookup(s: Sys, r: ReqId): Sys {
    if r !in s.requests || !s.requests[r].phase.PostFlight? then s else
    var k, phase := s.requests[r].key, s.requests[r].phase;
    var found := Lookup(s.entries, k, phase.now);
    AtPhase(LookupBy(s, r, k, phase.now), r,
            if found.hit.Some? then Hit(phase.now, found.hit.value) else Done(phase.shared.response.response))
  }

  /** The audit event and the write to the request's own connection. */
  function DoEmit(s: Sys, r: ReqId): Sys {
    if r !in s.requests || !s.requests[r].phase.Hit? then s else
    var snapshot := s.requests[r].phase.snapshot;
    AtPhase(s, r, Done(snapshot.response)).(emits := s.emits + [Audit(r, s.requests[r].key, snapshot)])
  }

  function Step(cfg: Config, s: Sys, a: Action): Sys {
    match a
    case Tick(delta) => s.(clock := s.clock + delta)
    case Arrive(r, k) => DoArrive(s, r, k)
    case Sample(r) => DoSample(s, r)
    case FirstLookup(r) => DoFirstLookup(s, r)
    case EnterGroup(r) => DoEnterGroup(s, r)
    case SampleRecheck(k) => DoSampleRecheck(cfg, s, k)
    case Recheck(k) => DoRecheck(s, k)
    case SampleRotation(k) => DoSampleRotation(s, k)
    case Execute(k, status, header, body) => DoExecute(s, k, Response(RecordedStatus(status), header, body))
    case Store(k) => DoStore(cfg, s, k)
    case Return(k) => DoReturn(s, k)
    case Wake(r) => DoWake(s, r)
    case SecondLookup(r) => DoSecondLookup(s, r)
    case Emit(r) => DoEmit(s, r)
  }

  function Run(cfg: Config, s: Sys, actions: seq<Action>): Sys
    decreases |actions|
  {
    if actions == [] then s else Run(cfg, Step(cfg, s, actions[0]), actions[1..])
  }

  lemma {:induction false} RunAppend(cfg: Config, s: Sys, a: seq<Action>, b: seq<Action>)
    ensures Run(cfg, s, a + b) == Run(cfg, Run(cfg, s, a), b)
    decreases |a|
  {
    hide Step;
    if a == [] {
      assert a + b == b;
    } else {
      assert (a + b)[1..] == a[1..] + b;
      RunAppend(cfg, Step(cfg, s, a[0]), a[1..], b);
    }
  }
}
