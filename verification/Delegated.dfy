/**
 The delegated (resolver) scan protocol: a signed request in a per-tag queue is run by an agent or expires
 into the timeout queue, where a countdown header decides between resubmission and a failure result.
 */
module Delegated {
  import opened Names
  import opened Options
  import opened Numbers

  /** What is signed: the part of a request no later hand may change. */
  datatype Details = Details(
    cloneUrl: string, commit: string, branch: string, project: string, filters: string, orchestrator: string)

  /** One key pair per broker. */
  datatype Keys = Keys(sign: Details -> string, verify: (string, Details) -> bool)

  ghost predicate Genuine(k: Keys)
  {
    forall d :: k.verify(k.sign(d), d)
  }

  datatype Config = Config(keys: Keys, tags: set<string>, retries: int, timeout: nat)

  datatype Request = Request(
    moniker: string, workflow: ScanWorkflow, tag: string, details: Details, signature: string)

  datatype ResultState = Done | Failure

  datatype Result = Result(
    token: nat, moniker: string, workflow: ScanWorkflow, details: Details, signature: string,
    state: ResultState, scanId: Option<string>, exitCode: Option<int>)

  datatype Publish = Accepted | Refused | Raised
  datatype Disposition = Acked | Rejected | Unsettled

  // ---- one delivery to an agent

  datatype Runner = SingleStage | TwoStage
  datatype Capability = Capable | Incapable | CapabilityRaises
  datatype Work = Scanned(scanId: string, exitCode: int) | CallFailed(exitCode: int) | WorkRaised

  /** How the outside world answers an agent's calls during one delivery. */
  datatype AgentEnv = AgentEnv(
    runner: Runner,
    enters: bool,              // the executor and its __aenter__ succeed
    binds: bool,               // the workflow object is made from the public key
    capability: Capability,
    work: Work,                // clone, resolver and scan submission
    publish: Publish,          // of the result inside the body
    tailRaises: bool,          // leaving the clone fails, after the result was published
    exitRaises: bool,          // the runner's __aexit__ itself fails
    failurePublish: Publish)   // of the failure response in the except block

  /** Whether the body gets as far as publishing a result of its own. */
  predicate Attempts(k: Keys, r: Request, env: AgentEnv)
  {
    && env.enters && env.binds && k.verify(r.signature, r.details)
    && (env.capability == Incapable || (env.capability == Capable && env.work.Scanned?))
  }

  predicate Publishes(k: Keys, r: Request, env: AgentEnv)
  {
    Attempts(k, r, env) && env.publish == Accepted
  }

  /** Whether an exception leaves the body of the runner's context. */
  predicate BodyRaises(k: Keys, r: Request, env: AgentEnv)
  {
    && env.enters
    && (!env.binds
        || (k.verify(r.signature, r.details)
            && (env.capability == CapabilityRaises
                || (env.capability == Capable && !env.work.Scanned?)
                || (Attempts(k, r, env) && env.publish == Raised)
                || (env.capability == Capable && env.work.Scanned? && env.tailRaises))))
  }

  /** Whether an exception reaches the except blocks: the two-stage runner's __aexit__ swallows those of the body. */
  predicate Escapes(k: Keys, r: Request, env: AgentEnv)
  {
    !env.enters || env.exitRaises || (env.runner == SingleStage && BodyRaises(k, r, env))
  }

  /** The exit code a failure response carries: only a failed call reports one. */
  function FailureCode(env: AgentEnv): Option<int>
  {
    if !env.exitRaises && env.capability == Capable && env.work.CallFailed? then Some(env.work.exitCode) else None
  }

  function MakeResult(token: nat, r: Request, state: ResultState, scanId: Option<string>, exitCode: Option<int>): Result
  {
    Result(token, r.moniker, r.workflow, r.details, r.signature, state, scanId, exitCode)
  }

  function BodyResult(token: nat, r: Request, env: AgentEnv): Result
  {
    if env.capability == Capable && env.work.Scanned?
    then MakeResult(token, r, if env.work.exitCode == 0 then Done else Failure,
                    Some(env.work.scanId), Some(env.work.exitCode))
    else MakeResult(token, r, Failure, None, None)
  }

  /** The results one delivery publishes, in order. */
  function AgentResults(k: Keys, token: nat, r: Request, env: AgentEnv): seq<Result>
  {
    (if Publishes(k, r, env) then [BodyResult(token, r, env)] else [])
    + (if Escapes(k, r, env) && env.enters && env.binds && env.failurePublish == Accepted
       then [MakeResult(token, r, Failure, None, FailureCode(env))] else [])
  }

  /**
   What becomes of the request. An exception before the workflow object exists, or one from the failure
   response itself, leaves the except block without ack or nack.
   */
  function AgentDisposition(k: Keys, r: Request, env: AgentEnv): Disposition
  {
    if !Escapes(k, r, env) then Acked
    else if !env.enters || !env.binds || env.failurePublish == Raised then Unsettled
    else Rejected
  }

  // ---- the broker

  datatype DeathReason = ByExpiry | ByRejection

  datatype Place =
    | Queued            // in its tag's request queue
    | WithAgent         // delivered, unacknowledged
    | Abandoned         // unacknowledged and no handler will settle it
    | Dead(reason: DeathReason)  // in the timeout queue

  /** `token` is history; the retry header travels with the message. */
  datatype Message = Message(token: nat, request: Request, retries: int, since: int, place: Place)

  /**
   `results` logs the results in the order published, `feedback` the indices of those whose feedback workflow
   was started; `enqueued`, `expired` and `taken` are history per token.
   */
  datatype State = State(
    now: int, msgs: map<nat, Message>, nextId: nat,
    started: map<nat, Request>, nextToken: nat,
    results: seq<Result>, handled: set<nat>, feedback: seq<nat>,
    enqueued: map<nat, nat>, expired: map<nat, nat>, taken: set<nat>)

  datatype Event =
    | Kickoff(moniker: string, workflow: ScanWorkflow, tag: string, details: Details, accepted: bool)
    | Tick(elapsed: nat)
    | Expire(id: nat)
    | Take(id: nat)
    | AgentRuns(id: nat, env: AgentEnv)
    | TimeoutRuns(id: nat, publish: Publish)
    | ResultArrives(index: nat, dispatchFails: bool)
    | AgentCrashes(id: nat, env: AgentEnv, published: nat)  // after a prefix of its publishes
    | TimeoutCrashes(id: nat)                               // after its publish, before its ack
    | Redeliver(id: nat)                                    // an abandoned message comes back

  datatype Effect =
    | Nothing
    | Elapse(elapsed: nat)
    | Create(request: Request)
    | Move(id: nat, place: Place)
    | Die(id: nat, reason: DeathReason)
    | Emit(id: nat, results: seq<Result>, after: After)
    | Resubmit(id: nat, keep: bool)
    | Discard(id: nat)
    | Handle(index: nat, start: bool)

  datatype After = Remove | Bury | Abandon | Return

  function AfterOf(d: Disposition): After
  {
    match d
    case Acked => Remove
    case Rejected => Bury // the request queues dead-letter rejected messages
    case Unsettled => Abandon
  }

  /** The timeout agent with handle_resolver_scan_timeout, up to its ack. */
  function TimeoutEffect(c: Config, id: nat, m: Message, publish: Publish, crash: bool): Effect
    requires m.place.Dead?
  {
    if !c.keys.verify(m.request.signature, m.request.details) then Discard(id)
    else if m.place.reason == ByRejection then Discard(id)
    else if publish != Accepted then Discard(id) // refused: ignored and acked; raised: nacked away
    else if m.retries - 1 > 0 then Resubmit(id, crash)
    else Emit(id, [MakeResult(m.token, m.request, Failure, None, None)], if crash then Return else Remove)
  }

  function Effects(c: Config, s: State, e: Event): Effect
  {
    match e
    case Kickoff(moniker, workflow, tag, details, accepted) =>
      if tag in c.tags && accepted
      then Create(Request(moniker, workflow, tag, details, c.keys.sign(details))) else Nothing
    case Tick(elapsed) => Elapse(elapsed)
    case Expire(id) =>
      if id in s.msgs && s.msgs[id].place == Queued && s.msgs[id].since + c.timeout <= s.now
      then Die(id, ByExpiry) else Nothing
    case Take(id) => if id in s.msgs && s.msgs[id].place == Queued then Move(id, WithAgent) else Nothing
    case AgentRuns(id, env) =>
      if !(id in s.msgs && s.msgs[id].place == WithAgent) then Nothing
      else
        var m := s.msgs[id];
        Emit(id, AgentResults(c.keys, m.token, m.request, env), AfterOf(AgentDisposition(c.keys, m.request, env)))
    case AgentCrashes(id, env, published) =>
      if !(id in s.msgs && s.msgs[id].place == WithAgent) then Nothing
      else
        var rs := AgentResults(c.keys, s.msgs[id].token, s.msgs[id].request, env);
        Emit(id, rs[..if published <= |rs| then published else |rs|], Return)
    case TimeoutRuns(id, publish) =>
      if id in s.msgs && s.msgs[id].place.Dead? then TimeoutEffect(c, id, s.msgs[id], publish, false) else Nothing
    case TimeoutCrashes(id) =>
      if id in s.msgs && s.msgs[id].place == Dead(ByExpiry)
        && c.keys.verify(s.msgs[id].request.signature, s.msgs[id].request.details)
      then TimeoutEffect(c, id, s.msgs[id], Accepted, true) else Nothing
    case Redeliver(id) => if id in s.msgs && s.msgs[id].place == Abandoned then Move(id, Queued) else Nothing
    case ResultArrives(index, dispatchFails) =>
      if !(index < |s.results| && index !in s.handled) then Nothing
      else
        var r := s.results[index];
        Handle(index, c.keys.verify(r.signature, r.details) && r.scanId.Some? && !dispatchFails)
  }

  function Count(m: map<nat, nat>, t: nat): nat
  {
    if t in m then m[t] else 0
  }

  predicate Applicable(s: State, f: Effect)
  {
    f.Move? || f.Die? || f.Emit? || f.Resubmit? ==> f.id in s.msgs
  }

  function PlaceAfter(m: Message, after: After): Place
  {
    match after
    case Bury => Dead(ByRejection)
    case Abandon => Abandoned
    case _ => if m.place.Dead? then m.place else Queued
  }

  /** delegated_scan_resubmit with the count the timeout handler computed */
  function Resubmitted(now: int, m: Message): Message
  {
    m.(retries := Max(m.retries - 1, 0), since := now, place := Queued)
  }

  function Commit(c: Config, s: State, f: Effect): State
    requires Applicable(s, f)
  {
    match f
    case Nothing => s
    case Elapse(elapsed) => s.(now := s.now + elapsed)
    case Create(r) =>
      s.(msgs := s.msgs[s.nextId := Message(s.nextToken, r, Max(c.retries, 0), s.now, Queued)], nextId := s.nextId + 1,
         started := s.started[s.nextToken := r], nextToken := s.nextToken + 1,
         enqueued := s.enqueued[s.nextToken := 1])
    case Move(id, place) =>
      s.(msgs := s.msgs[id := s.msgs[id].(place := place)],
         taken := if place == WithAgent then s.taken + {s.msgs[id].token} else s.taken)
    case Die(id, reason) =>
      var t := s.msgs[id].token;
      s.(msgs := s.msgs[id := s.msgs[id].(place := Dead(reason))], expired := s.expired[t := Count(s.expired, t) + 1])
    case Emit(id, results, after) =>
      s.(results := s.results + results,
         msgs := if after == Remove then s.msgs - {id}
                 else s.msgs[id := s.msgs[id].(place := PlaceAfter(s.msgs[id], after))])
    case Resubmit(id, keep) =>
      var t := s.msgs[id].token;
      s.(msgs := (if keep then s.msgs else s.msgs - {id})[s.nextId := Resubmitted(s.now, s.msgs[id])],
         nextId := s.nextId + 1, enqueued := s.enqueued[t := Count(s.enqueued, t) + 1])
    case Discard(id) => s.(msgs := s.msgs - {id})
    case Handle(index, start) =>
      s.(handled := s.handled + {index}, feedback := if start then s.feedback + [index] else s.feedback)
  }

  lemma EffectsApplicable(c: Config, s: State, e: Event)
    ensures Applicable(s, Effects(c, s, e))
  {
  }

  function Apply(c: Config, s: State, e: Event): State
  {
    EffectsApplicable(c, s, e);
    Commit(c, s, Effects(c, s, e))
  }

  function Run(c: Config, s: State, es: seq<Event>): State
  {
    if es == [] then s else Apply(c, Run(c, s, es[..|es| - 1]), es[|es| - 1])
  }

  const EMPTY := State(0, map[], 0, map[], 0, [], {}, [], map[], map[], {})

  lemma RunLast(c: Config, s: State, es: seq<Event>)
    requires es != []
    ensures Run(c, s, es) == Apply(c, Run(c, s, es[..|es| - 1]), es[|es| - 1])
  {
  }

  lemma RunThree(c: Config, s: State, a: Event, b: Event, d: Event)
    ensures Run(c, s, [a, b, d]) == Apply(c, Apply(c, Apply(c, s, a), b), d)
  {
    assert [a, b, d][..2] == [a, b] && [a, b][..1] == [a] && [a][..0] == [];
    assert Run(c, s, [a]) == Apply(c, s, a);
    assert Run(c, s, [a, b]) == Apply(c, Run(c, s, [a]), b);
  }

  /** Every event of a run meets a condition in the state it happens in. */
  ghost predicate Each(c: Config, s: State, es: seq<Event>, q: (State, Event) -> bool)
  {
    es == [] || (Each(c, s, es[..|es| - 1], q) && q(Run(c, s, es[..|es| - 1]), es[|es| - 1]))
  }

  /** Every state of a run meets a condition, from the first to the last. */
  ghost predicate Always(c: Config, s: State, es: seq<Event>, p: State -> bool)
  {
    p(Run(c, s, es)) && (es == [] || Always(c, s, es[..|es| - 1], p))
  }

  predicate IsCrash(e: Event)
  {
    e.AgentCrashes? || e.TimeoutCrashes? || e.Redeliver?
  }

  predicate CrashFree(es: seq<Event>)
  {
    forall i :: 0 <= i < |es| ==> !IsCrash(es[i])
  }
}
