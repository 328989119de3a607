/**
 The scan polling protocol as a state machine over the broker. Every await of the handler is a step of its
 own, so handlers of different messages interleave freely; an unacknowledged message can come back at any
 point (`Crash`). Times are milliseconds.
 */
module Polling {
  import opened Runs
  import opened Names
  import opened Backoff
  import T = Topology

  /** The services a poll concludes through. */
  datatype FeedbackService = PRFeedbackService | PushFeedbackService

  datatype Config = Config(multiplier: nat, cap: nat, services: seq<FeedbackService>)

  /** Which copy of the await and polling queues a message is in. */
  datatype Epoch = Legacy | Current

  /** The await message body. */
  datatype Body = Body(
    scan: string, project: string, moniker: string, workflow: ScanWorkflow, details: string, dropBy: int)

  /** How far the handler holding an unacknowledged delivery has come. */
  datatype Progress =
    | Received
    | Expiring                               // expired when checked, about to be acked
    | Checked(at: int)                       // not expired at that time
    | ChannelOpen(at: int)
    | Concluding(at: int, success: bool, called: nat) // the scan was found not executing; services called so far
    | Notified                               // all feedback services were called, about to be acked
    | Stopping                               // ResponseException, about to be acked
    | Requeueing                             // in the finally block with requeue_on_finally still set
    | Republished                            // the replacement was accepted, about to be acked
    | Refusing                               // the replacement was refused, about to be nacked back
    | Failing                                // an exception reached the wrapper, about to be nacked away

  datatype Place = Waiting(since: int) | Ready | InHand(progress: Progress)

  /** A routing key made by one of the topic makers. */
  datatype RoutingKey = RoutingKey(kind: T.ScanMessage, moniker: string)
  {
    function Text(): string
    {
      T.KeyOf(kind, moniker)
    }
  }

  /** `token`, `hops` and `polls` are history: lineage, accepted requeues and unexpired polls. No handler reads them. */
  datatype Message = Message(
    token: nat, body: Body, key: RoutingKey, epoch: Epoch, delay: nat, hops: nat, polls: nat, place: Place)

  datatype Origin = Origin(body: Body, at: int, interval: nat, budget: nat)

  datatype Conclusion = Expired | Finished | Stopped | Dropped

  /** A feedback or error message as published by a feedback service. */
  datatype Note = Note(
    token: nat, key: RoutingKey, isError: bool,
    scan: string, project: string, moniker: string, details: string, checkedAt: int)

  datatype State = State(
    now: int,
    msgs: map<nat, Message>, nextId: nat,
    started: map<nat, Origin>, nextToken: nat,
    concluded: map<nat, Conclusion>,
    finished: map<string, bool>,
    notes: seq<Note>)

  datatype Inspection = Answered | ResponseError | OtherError
  datatype Publish = Accepted | Refused | Raised

  datatype Event =
    | Begin(scan: string, project: string, moniker: string, workflow: ScanWorkflow, details: string,
            interval: nat, budget: nat, accepted: bool)
    | Tick(elapsed: nat)
    | ScanEnds(scan: string, success: bool)
    | Expire(id: nat)
    | Deliver(id: nat)
    | CheckExpiry(id: nat)
    | OpenChannel(id: nat, opens: bool)
    | Inspect(id: nat, answer: Inspection)
    | Notify(id: nat, outcome: Publish)      // the next service is called
    | Republish(id: nat, outcome: Publish)
    | Settle(id: nat)
    | Crash(id: nat)

  /** 9999-12-31T00:00:00Z */
  const FOREVER := 253402214400000

  /** compute_drop_by_timestamp */
  function DropBy(now: int, budget: nat): int
  {
    if budget == 0 then FOREVER else now + budget
  }

  function AwaitKind(w: ScanWorkflow): T.ScanMessage
  {
    match w case PR => T.PrAwait case Push => T.PushAwait
  }

  function AwaitKey(b: Body): RoutingKey
  {
    RoutingKey(AwaitKind(b.workflow), b.moniker)
  }

  // ---- the feedback services: each one's own guard and its own messages

  /** The workflow a service compares a message with before it does anything. */
  function Guard(svc: FeedbackService): ScanWorkflow
  {
    match svc case PRFeedbackService => PR case PushFeedbackService => Push
  }

  /** The topic of handle_completed_scan or handle_awaited_scan_error. */
  function TopicOf(svc: FeedbackService, success: bool): T.ScanMessage
  {
    match svc
    case PRFeedbackService => if success then T.PrFeedbackMsg else T.PrAnnotateMsg
    case PushFeedbackService => T.PushFeedbackMsg
  }

  function NoteBy(svc: FeedbackService, token: nat, b: Body, at: int, success: bool): Note
  {
    Note(token, RoutingKey(TopicOf(svc, success), b.moniker), !success, b.scan, b.project, b.moniker, b.details, at)
  }

  /** What calling one service adds: nothing unless its guard passes and its publish is accepted. */
  function CallNotes(svc: FeedbackService, token: nat, b: Body, at: int, success: bool, outcome: Publish): seq<Note>
  {
    if b.workflow == Guard(svc) && outcome == Accepted then [NoteBy(svc, token, b, at, success)] else []
  }

  /** No two services in the list are for one workflow. */
  predicate OneEach(c: Config)
  {
    forall i, j :: 0 <= i < j < |c.services| ==> Guard(c.services[i]) != Guard(c.services[j])
  }

  /** The list every service set is configured with. */
  const DEPLOYED: seq<FeedbackService> := [PRFeedbackService, PushFeedbackService]

  /** Where the handler is once `called` services were called. */
  function AfterCalls(c: Config, at: int, success: bool, called: nat): Progress
  {
    if called < |c.services| then Concluding(at, success, called) else Notified
  }

  // ---- what a workflow's message is, whoever publishes it

  /** The message kind meant for a scan of a workflow that ended well or badly. */
  function FeedbackKind(w: ScanWorkflow, success: bool): T.ScanMessage
  {
    match w
    case PR => if success then T.PrFeedbackMsg else T.PrAnnotateMsg
    case Push => T.PushFeedbackMsg
  }

  function NoteFor(token: nat, b: Body, at: int, success: bool): Note
  {
    Note(token, RoutingKey(FeedbackKind(b.workflow, success), b.moniker), !success,
         b.scan, b.project, b.moniker, b.details, at)
  }

  /** The message a requeue publishes: same body, same key, longer delay, new queues. */
  function Replacement(c: Config, now: int, m: Message): Message
  {
    m.(epoch := Current, delay := Next(m.delay, c.multiplier, c.cap), hops := m.hops + 1, place := Waiting(now))
  }

  /** What one step does to the broker. */
  datatype Effect =
    | Nothing
    | Elapse(elapsed: nat)
    | Record(scan: string, success: bool)
    | Create(origin: Origin)
    | Move(id: nat, place: Place, polled: bool)
    | Send(id: nat, notes: seq<Note>, place: Place) // one service was called
    | Replace(id: nat)                        // publish the replacement, then the handler is at Republished
    | Forget(id: nat)                         // ack of a replaced message
    | Conclude(id: nat, how: Conclusion)      // ack or nack that ends the token

  predicate HeldAt(s: State, id: nat, p: Progress)
  {
    id in s.msgs && s.msgs[id].place == InHand(p)
  }

  /** What a handler, the broker or the outside world does on an event; `Nothing` when the event is not enabled. */
  function Effects(c: Config, s: State, e: Event): Effect
  {
    match e
    case Begin(scan, project, moniker, workflow, details, interval, budget, accepted) =>
      if !accepted || '.' in moniker then Nothing // a dotted moniker reaches no queue
      else
        var body := Body(scan, project, moniker, workflow, details, DropBy(s.now, budget));
        Create(Origin(body, s.now, interval, budget))
    case Tick(elapsed) => Elapse(elapsed)
    case ScanEnds(scan, success) => if scan in s.finished then Nothing else Record(scan, success)
    case Expire(id) =>
      if id in s.msgs && s.msgs[id].place.Waiting? && s.msgs[id].place.since + s.msgs[id].delay <= s.now
      then Move(id, Ready, false) else Nothing
    case Deliver(id) =>
      if id in s.msgs && s.msgs[id].place == Ready then Move(id, InHand(Received), false) else Nothing
    case _ =>
      if e.id in s.msgs && s.msgs[e.id].place.InHand? then Handle(c, s, e, s.msgs[e.id]) else Nothing
  }

  /** The poll handler and its wrapper, one await at a time. */
  function Handle(c: Config, s: State, e: Event, m: Message): Effect
    requires e.CheckExpiry? || e.OpenChannel? || e.Inspect? || e.Notify? || e.Republish? || e.Settle? || e.Crash?
    requires m.place.InHand?
  {
    match (e, m.place.progress)
    case (CheckExpiry(id), Received) =>
      if s.now >= m.body.dropBy then Move(id, InHand(Expiring), false) else Move(id, InHand(Checked(s.now)), true)
    case (OpenChannel(id, opens), Checked(at)) =>
      Move(id, InHand(if opens then ChannelOpen(at) else Failing), false)
    case (Inspect(id, ResponseError), ChannelOpen(_)) => Move(id, InHand(Stopping), false)
    case (Inspect(id, OtherError), ChannelOpen(_)) => Move(id, InHand(Requeueing), false)
    case (Inspect(id, Answered), ChannelOpen(at)) =>
      if m.body.scan in s.finished then Move(id, InHand(AfterCalls(c, at, s.finished[m.body.scan], 0)), false)
      else Move(id, InHand(Requeueing), false)
    case (Notify(id, outcome), Concluding(at, success, called)) =>
      if called >= |c.services| then Nothing
      else Send(id, CallNotes(c.services[called], m.token, m.body, at, success, outcome),
                InHand(AfterCalls(c, at, success, called + 1)))
    case (Republish(id, Accepted), Requeueing) => Replace(id)
    case (Republish(id, Refused), Requeueing) => Move(id, InHand(Refusing), false)
    case (Republish(id, Raised), Requeueing) => Move(id, InHand(Failing), false)
    case (Settle(id), Expiring) => Conclude(id, Expired)
    case (Settle(id), Notified) => Conclude(id, Finished)
    case (Settle(id), Stopping) => Conclude(id, Stopped)
    case (Settle(id), Republished) => Forget(id)
    case (Settle(id), Refusing) => Move(id, Ready, false)
    case (Settle(id), Failing) => Conclude(id, Dropped) // the polling queues have no dead-letter exchange
    case (Crash(id), _) => Move(id, Ready, false)
    case (_, _) => Nothing
  }

  function Moved(m: Message, place: Place, polled: bool): Message
  {
    m.(place := place, polls := if polled then m.polls + 1 else m.polls)
  }

  /** The broker after an effect. */
  function Commit(c: Config, s: State, f: Effect): State
    requires f.Move? || f.Send? || f.Replace? || f.Conclude? ==> f.id in s.msgs
  {
    match f
    case Nothing => s
    case Elapse(elapsed) => s.(now := s.now + elapsed)
    case Record(scan, success) => s.(finished := s.finished[scan := success])
    case Create(o) =>
      var m := Message(s.nextToken, o.body, AwaitKey(o.body), Current, o.interval, 0, 0, Waiting(s.now));
      s.(msgs := s.msgs[s.nextId := m], nextId := s.nextId + 1,
         started := s.started[s.nextToken := o], nextToken := s.nextToken + 1)
    case Move(id, place, polled) => s.(msgs := s.msgs[id := Moved(s.msgs[id], place, polled)])
    case Send(id, notes, place) =>
      s.(msgs := s.msgs[id := Moved(s.msgs[id], place, false)], notes := s.notes + notes)
    case Replace(id) =>
      s.(msgs := s.msgs[id := Moved(s.msgs[id], InHand(Republished), false)]
                       [s.nextId := Replacement(c, s.now, s.msgs[id])],
         nextId := s.nextId + 1)
    case Forget(id) => s.(msgs := s.msgs - {id})
    case Conclude(id, how) => s.(msgs := s.msgs - {id}, concluded := s.concluded[s.msgs[id].token := how])
  }

  /** One step; an event that is not enabled changes nothing. */
  function Apply(c: Config, s: State, e: Event): State
  {
    Commit(c, s, Effects(c, s, e))
  }

  function Run(c: Config, s: State, es: seq<Event>): State
  {
    if es == [] then s else Apply(c, Run(c, s, es[..|es| - 1]), es[|es| - 1])
  }

  lemma RunSnoc(c: Config, s: State, es: seq<Event>, e: Event)
    ensures Run(c, s, es + [e]) == Apply(c, Run(c, s, es), e)
  {
    assert (es + [e])[..|es + [e]| - 1] == es;
  }

  lemma RunConcat(c: Config, s: State, es: seq<Event>, more: seq<Event>)
    ensures Run(c, s, es + more) == Run(c, Run(c, s, es), more)
  {
    var run := (t: State, gs: seq<Event>) => Run(c, t, gs);
    var step := (t: State, e: Event) => Apply(c, t, e);
    forall t: State, gs: seq<Event>, e: Event ensures run(t, gs + [e]) == step(run(t, gs), e) {
      RunSnoc(c, t, gs, e);
    }
    Concat(run, step, s, es, more);
  }

  lemma RunLast(c: Config, s: State, es: seq<Event>)
    requires es != []
    ensures Run(c, s, es) == Apply(c, Run(c, s, es[..|es| - 1]), es[|es| - 1])
  {
  }

  /** Every event of a run meets a condition in the state it happens in. */
  ghost predicate Each(c: Config, s: State, es: seq<Event>, q: (State, Event) -> bool)
  {
    es == [] || (Each(c, s, es[..|es| - 1], q) && q(Run(c, s, es[..|es| - 1]), es[|es| - 1]))
  }

  /** Every state of a run meets a condition, from the first to the last. */
  ghost predicate Always(c: Config, s: State, es: seq<Event>, p: State -> bool)
  {
    p(Run(c, s, es)) && (es == [] || Always(c, s, es[..|es| - 1], p))
  }

  lemma {:induction false} EachImplies(c: Config, s: State, es: seq<Event>, q: (State, Event) -> bool,
                                       r: (State, Event) -> bool)
    requires Each(c, s, es, q) && forall t, e :: q(t, e) ==> r(t, e)
    ensures Each(c, s, es, r)
  {
    if es != [] {
      EachImplies(c, s, es[..|es| - 1], q, r);
    }
  }

  predicate CrashFree(es: seq<Event>)
  {
    forall i :: 0 <= i < |es| ==> !es[i].Crash?
  }

  predicate NoRefusals(es: seq<Event>)
  {
    forall i :: 0 <= i < |es| ==> !(es[i].Republish? && es[i].outcome == Refused)
  }
}
