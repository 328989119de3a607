/** The poll handler and its wrapper as code, one delivery from start to end. */
module PollHandler {
  import opened Names
  import opened Polling

  /** How the outside world answers the handler's calls; `notified` is the outcome of each service's publish. */
  datatype Env = Env(channelOpens: bool, answer: Inspection, notified: nat -> Publish, publish: Publish)

  function Ended(s: State, id: nat, how: Conclusion): State
    requires id in s.msgs
  {
    s.(msgs := s.msgs - {id}, concluded := s.concluded[s.msgs[id].token := how])
  }

  function Polled(m: Message): Message
  {
    m.(polls := m.polls + 1)
  }

  /** What one undisturbed poll leaves behind, as a table of its outcomes. */
  function Outcome(c: Config, s: State, id: nat, env: Env): State
    requires id in s.msgs
  {
    var m := s.msgs[id];
    var found := env.answer == Answered && m.body.scan in s.finished;
    if s.now >= m.body.dropBy then Ended(s, id, Expired)
    else if !env.channelOpens then Ended(s, id, Dropped)
    else if env.answer == ResponseError then Ended(s, id, Stopped)
    else if found then
      var notes := Gathered(c, m.token, m.body, s.now, s.finished[m.body.scan], env.notified, |c.services|);
      Ended(s, id, Finished).(notes := s.notes + notes)
    else Requeued(c, s, id, env.publish)
  }

  function Requeued(c: Config, s: State, id: nat, publish: Publish): State
    requires id in s.msgs
  {
    var m := Polled(s.msgs[id]);
    match publish
    case Accepted => s.(msgs := (s.msgs - {id})[s.nextId := Replacement(c, s.now, m)], nextId := s.nextId + 1)
    case Refused => s.(msgs := s.msgs[id := m.(place := Ready)])
    case Raised => Ended(s, id, Dropped)
  }

  /** How a token ends: the message is gone, nothing else is touched. */
  ghost predicate Ends(s: State, s': State, id: nat, how: Conclusion)
    requires id in s.msgs
  {
    && s'.msgs == s.msgs - {id}
    && s'.concluded == s.concluded[s.msgs[id].token := how]
    && s'.now == s.now && s'.nextId == s.nextId && s'.started == s.started && s'.finished == s.finished
  }

  /**
   What a poll means. An expired scan is given up without a message; so is one for which no channel opens or
   whose inspection gets an error response, which is never polled again. A scan that has ended is concluded by
   the services. Any other is published again under its own key with its delay multiplied up to the cap, and
   stays where it is if that is refused.
   */
  lemma OutcomeMeans(c: Config, s: State, id: nat, env: Env)
    requires id in s.msgs && id < s.nextId
    ensures var s', m := Outcome(c, s, id, env), s.msgs[id];
      if s.now >= m.body.dropBy then Ends(s, s', id, Expired) && s'.notes == s.notes
      else if !env.channelOpens then Ends(s, s', id, Dropped) && s'.notes == s.notes
      else if env.answer == ResponseError then Ends(s, s', id, Stopped) && s'.notes == s.notes
      else if env.answer == Answered && m.body.scan in s.finished then
        Ends(s, s', id, Finished) && s.notes <= s'.notes
      else if env.publish == Raised then Ends(s, s', id, Dropped) && s'.notes == s.notes
      else
        && s'.notes == s.notes && s'.concluded == s.concluded && s'.started == s.started && s'.now == s.now
        && s'.finished == s.finished
        && if env.publish == Refused then
             && s'.msgs.Keys == s.msgs.Keys && s'.nextId == s.nextId
             && s'.msgs[id] == m.(place := Ready, polls := m.polls + 1)
             && forall k :: k in s.msgs && k != id ==> s'.msgs[k] == s.msgs[k]
           else
             && s'.msgs.Keys == s.msgs.Keys - {id} + {s.nextId}
             && (forall k :: k in s.msgs && k != id && k != s.nextId ==> k in s'.msgs && s'.msgs[k] == s.msgs[k])
             && var n := s'.msgs[s.nextId];
                && n.body == m.body && n.key == m.key && n.token == m.token
                && n.place == Waiting(s.now) && n.epoch == Current
                && n.delay == (if m.delay * c.multiplier < c.cap then m.delay * c.multiplier else c.cap)
  {
  }

  class ScanPollingService {
    const c: Config
    var broker: State

    constructor (c: Config, broker: State)
      ensures this.c == c && this.broker == broker
    {
      this.c, this.broker := c, broker;
    }

    /** Performs one broker effect and records it in the trace. */
    method Do(e: Event, ghost before: State, ghost trace: seq<Event>) returns (ghost longer: seq<Event>)
      requires broker == Run(c, before, trace) && CrashFree(trace) && !e.Crash?
      modifies this
      ensures broker == Apply(c, old(broker), e)
      ensures longer == trace + [e] && broker == Run(c, before, longer) && CrashFree(longer)
    {
      broker := Apply(c, broker, e);
      longer := trace + [e];
      RunSnoc(c, before, trace, e);
    }

    // The calls of the handler. Each is one step; its contract says where the message is afterwards.

    method IsExpired(id: nat, ghost before: State, ghost trace: seq<Event>)
      returns (expired: bool, ghost longer: seq<Event>)
      requires broker == Run(c, before, trace) && CrashFree(trace) && HeldAt(broker, id, Received)
      modifies this
      ensures broker == Run(c, before, longer) && CrashFree(longer)
      ensures expired <==> old(broker).now >= old(broker).msgs[id].body.dropBy
      ensures broker == At(old(broker), id, if expired then Expiring else Checked(old(broker).now), !expired)
    {
      expired := broker.now >= broker.msgs[id].body.dropBy;
      ExpiryChecked(c, broker, id);
      longer := Do(CheckExpiry(id), before, trace);
    }

    method TryOpenChannel(id: nat, opens: bool, ghost at: int, ghost before: State, ghost trace: seq<Event>)
      returns (ghost longer: seq<Event>)
      requires broker == Run(c, before, trace) && CrashFree(trace) && HeldAt(broker, id, Checked(at))
      modifies this
      ensures broker == Run(c, before, longer) && CrashFree(longer)
      ensures broker == At(old(broker), id, if opens then ChannelOpen(at) else Failing, false)
    {
      ChannelTried(c, broker, id, opens, at);
      longer := Do(OpenChannel(id, opens), before, trace);
    }

    method LoadInspector(id: nat, answer: Inspection, ghost at: int, ghost before: State, ghost trace: seq<Event>)
      returns (done: bool, ghost longer: seq<Event>)
      requires broker == Run(c, before, trace) && CrashFree(trace) && HeldAt(broker, id, ChannelOpen(at))
      modifies this
      ensures broker == Run(c, before, longer) && CrashFree(longer)
      ensures done <==> answer == Answered && old(broker).msgs[id].body.scan in old(broker).finished
      ensures broker == At(old(broker), id,
        if done then AfterCalls(c, at, old(broker).finished[old(broker).msgs[id].body.scan], 0)
        else if answer == ResponseError then Stopping else Requeueing, false)
    {
      done := answer == Answered && broker.msgs[id].body.scan in broker.finished;
      InspectorTried(c, broker, id, answer, at);
      longer := Do(Inspect(id, answer), before, trace);
    }

    /** The gather over all services, each with its own guard, topic and outcome. */
    method CallServices(id: nat, notified: nat -> Publish, ghost at: int, ghost success: bool,
                        ghost before: State, ghost trace: seq<Event>)
      returns (ghost longer: seq<Event>)
      requires broker == Run(c, before, trace) && CrashFree(trace) && HeldAt(broker, id, AfterCalls(c, at, success, 0))
      modifies this
      ensures broker == Run(c, before, longer) && CrashFree(longer)
      ensures broker == Called(c, old(broker), id, at, success, notified, |c.services|)
    {
      CalledNone(c, broker, id, at, success, notified);
      longer := CallEach(id, notified, at, success, broker, before, trace);
    }

    /** The loop itself. */
    method CallEach(id: nat, notified: nat -> Publish, ghost at: int, ghost success: bool, ghost first: State,
                    ghost before: State, ghost trace: seq<Event>)
      returns (ghost longer: seq<Event>)
      requires broker == Run(c, before, trace) && CrashFree(trace) && id in first.msgs
      requires broker == Called(c, first, id, at, success, notified, 0)
      modifies this
      ensures broker == Run(c, before, longer) && CrashFree(longer)
      ensures broker == Called(c, first, id, at, success, notified, |c.services|)
    {
      longer := trace;
      for k := 0 to |c.services|
        invariant broker == Run(c, before, longer) && CrashFree(longer)
        invariant broker == Called(c, first, id, at, success, notified, k)
      {
        longer := CallOne(id, notified, k, at, success, first, before, longer);
      }
    }

    /** The call of one service. */
    method CallOne(id: nat, notified: nat -> Publish, k: nat, ghost at: int, ghost success: bool, ghost first: State,
                   ghost before: State, ghost trace: seq<Event>)
      returns (ghost longer: seq<Event>)
      requires broker == Run(c, before, trace) && CrashFree(trace) && id in first.msgs && k < |c.services|
      requires broker == Called(c, first, id, at, success, notified, k)
      modifies this
      ensures broker == Run(c, before, longer) && CrashFree(longer)
      ensures broker == Called(c, first, id, at, success, notified, k + 1)
    {
      CalledOne(c, first, id, at, success, notified, k);
      longer := Do(Notify(id, notified(k)), before, trace);
    }

    method PublishReplacement(id: nat, outcome: Publish, ghost before: State, ghost trace: seq<Event>)
      returns (ghost longer: seq<Event>)
      requires broker == Run(c, before, trace) && CrashFree(trace) && HeldAt(broker, id, Requeueing)
      modifies this
      ensures broker == Run(c, before, longer) && CrashFree(longer)
      ensures broker == Published(c, old(broker), id, outcome)
    {
      ReplacementTried(c, broker, id, outcome);
      longer := Do(Republish(id, outcome), before, trace);
    }

    method AckOrNack(id: nat, ghost before: State, ghost trace: seq<Event>) returns (ghost longer: seq<Event>)
      requires broker == Run(c, before, trace) && CrashFree(trace)
      requires id in broker.msgs && broker.msgs[id].place.InHand?
      requires Settling(broker.msgs[id].place.progress)
      modifies this
      ensures broker == Run(c, before, longer) && CrashFree(longer)
      ensures broker == Settled(old(broker), id)
    {
      SettleIs(c, broker, id);
      longer := Do(Settle(id), before, trace);
    }

    /**
     execute_poll_scan_workflow under the process_poll wrapper. The new broker state is the tabled outcome,
     and it is reached by a crash-free run of the protocol, so everything proved of runs holds of it.
     */
    method ExecutePoll(id: nat, env: Env) returns (ghost trace: seq<Event>)
      requires HeldAt(broker, id, Received) && id < broker.nextId
      modifies this
      ensures broker == Outcome(c, old(broker), id, env)
      ensures broker == Run(c, old(broker), trace) && CrashFree(trace)
    {
      ghost var before := broker;
      ghost var at := broker.now;
      var requeueOnFinally := true;
      var expired;
      expired, trace := IsExpired(id, before, []);
      if expired {
        trace := AckOrNack(id, before, trace);
        EndedAt(before, id, Expiring, false, Expired);
      } else {
        var writeChannel := env.channelOpens;
        trace := TryOpenChannel(id, env.channelOpens, at, before, trace);
        AtAt(before, id, Checked(at), if writeChannel then ChannelOpen(at) else Failing);
        if writeChannel {
          requeueOnFinally, trace := TryConclude(id, env, at, before, trace);
        }
        // finally
        if requeueOnFinally && writeChannel {
          trace := Requeue(id, env.publish, before, trace);
        }
        // the wrapper nacks away what an exception left unsettled
        if !writeChannel {
          trace := AckOrNack(id, before, trace);
          EndedAt(before, id, Failing, true, Dropped);
        }
      }
    }

    /** The finally block with the flag still set and a channel to write to. */
    method Requeue(id: nat, publish: Publish, ghost before: State, ghost trace: seq<Event>)
      returns (ghost longer: seq<Event>)
      requires broker == Run(c, before, trace) && CrashFree(trace)
      requires id in before.msgs && id < before.nextId && broker == At(before, id, Requeueing, true)
      modifies this
      ensures broker == Run(c, before, longer) && CrashFree(longer)
      ensures broker == Requeued(c, before, id, publish)
    {
      longer := PublishReplacement(id, publish, before, trace);
      PublishedAt(c, before, id, publish);
      longer := AckOrNack(id, before, longer);
    }

    /** The inner try: the services are called and the message is acked whatever they did. */
    method Conclude(id: nat, env: Env, ghost at: int, ghost success: bool, ghost before: State, ghost trace: seq<Event>)
      returns (ghost longer: seq<Event>)
      requires broker == Run(c, before, trace) && CrashFree(trace)
      requires id in before.msgs && broker == At(before, id, AfterCalls(c, at, success, 0), true)
      modifies this
      ensures broker == Run(c, before, longer) && CrashFree(longer)
      ensures broker == Ended(before, id, Finished).(notes := before.notes
        + Gathered(c, before.msgs[id].token, before.msgs[id].body, at, success, env.notified, |c.services|))
    {
      longer := CallServices(id, env.notified, at, success, before, trace);
      AtAt(before, id, AfterCalls(c, at, success, 0), Notified);
      longer := AckOrNack(id, before, longer);
      EndedAt(before, id, Notified, true, Finished);
    }

    /** The body of the try: leaves the message for the finally block unless the scan ended or was refused. */
    method TryConclude(id: nat, env: Env, ghost at: int, ghost before: State, ghost trace: seq<Event>)
      returns (requeueOnFinally: bool, ghost longer: seq<Event>)
      requires broker == Run(c, before, trace) && CrashFree(trace)
      requires id in before.msgs && broker == At(before, id, ChannelOpen(at), true)
      requires at == before.now < before.msgs[id].body.dropBy && env.channelOpens
      modifies this
      ensures broker == Run(c, before, longer) && CrashFree(longer)
      ensures requeueOnFinally <==>
        env.answer == OtherError || (env.answer == Answered && before.msgs[id].body.scan !in before.finished)
      ensures broker == if requeueOnFinally then At(before, id, Requeueing, true) else Outcome(c, before, id, env)
    {
      requeueOnFinally := true;
      var done;
      done, longer := LoadInspector(id, env.answer, at, before, trace);
      ghost var success := done && before.finished[before.msgs[id].body.scan];
      AtAt(before, id, ChannelOpen(at),
        if done then AfterCalls(c, at, success, 0) else if env.answer == ResponseError then Stopping else Requeueing);
      if done {
        requeueOnFinally := false;
        longer := Conclude(id, env, at, success, before, longer);
      } else if env.answer == ResponseError {
        requeueOnFinally := false;
        longer := AckOrNack(id, before, longer);
        EndedAt(before, id, Stopping, true, Stopped);
      }
    }
  }

  // ---- the services

  /** The notes of the first `n` services. */
  function Gathered(c: Config, token: nat, b: Body, at: int, success: bool, notified: nat -> Publish, n: nat): seq<Note>
    requires n <= |c.services|
  {
    if n == 0 then []
    else Gathered(c, token, b, at, success, notified, n - 1)
         + CallNotes(c.services[n - 1], token, b, at, success, notified(n - 1))
  }

  /** The broker once `n` services were called. */
  function Called(c: Config, s: State, id: nat, at: int, success: bool, notified: nat -> Publish, n: nat): State
    requires id in s.msgs && n <= |c.services|
  {
    At(s, id, AfterCalls(c, at, success, n), false)
      .(notes := s.notes + Gathered(c, s.msgs[id].token, s.msgs[id].body, at, success, notified, n))
  }

  lemma CalledNone(c: Config, s: State, id: nat, at: int, success: bool, notified: nat -> Publish)
    requires HeldAt(s, id, AfterCalls(c, at, success, 0))
    ensures Called(c, s, id, at, success, notified, 0) == s
  {
    assert At(s, id, AfterCalls(c, at, success, 0), false).msgs == s.msgs;
  }

  lemma CalledOne(c: Config, s: State, id: nat, at: int, success: bool, notified: nat -> Publish, k: nat)
    requires id in s.msgs && k < |c.services|
    ensures Apply(c, Called(c, s, id, at, success, notified, k), Notify(id, notified(k)))
         == Called(c, s, id, at, success, notified, k + 1)
  {
    var t := Called(c, s, id, at, success, notified, k);
    assert HeldAt(t, id, Concluding(at, success, k));
    var u := Apply(c, t, Notify(id, notified(k)));
    assert u.msgs == At(s, id, AfterCalls(c, at, success, k + 1), false).msgs;
  }

  /** With no service of the workflow among the first `n`, they publish nothing. */
  lemma {:induction false} OthersSilent(c: Config, token: nat, b: Body, at: int, success: bool,
                                        notified: nat -> Publish, n: nat)
    requires n <= |c.services| && forall k :: 0 <= k < n ==> Guard(c.services[k]) != b.workflow
    ensures Gathered(c, token, b, at, success, notified, n) == []
  {
    if n > 0 {
      OthersSilent(c, token, b, at, success, notified, n - 1);
    }
  }

  /**
   With one service per workflow, calling all of them publishes exactly the message meant for the token's
   workflow if that workflow's own service had its publish accepted, and nothing otherwise.
   */
  lemma {:induction false} OwnServicePublishes(c: Config, token: nat, b: Body, at: int, success: bool,
                                               notified: nat -> Publish, own: nat, n: nat)
    requires OneEach(c) && own < n <= |c.services| && Guard(c.services[own]) == b.workflow
    ensures Gathered(c, token, b, at, success, notified, n)
         == if notified(own) == Accepted then [NoteFor(token, b, at, success)] else []
  {
    if own == n - 1 {
      OthersSilent(c, token, b, at, success, notified, n - 1);
    } else {
      OwnServicePublishes(c, token, b, at, success, notified, own, n - 1);
    }
  }

  /** One service per workflow is needed: each further one for the workflow adds its own copy. */
  lemma {:induction false} EveryListedPublishes(c: Config, token: nat, b: Body, at: int, success: bool,
                                                notified: nat -> Publish, n: nat)
    requires n <= |c.services| && forall k: nat :: notified(k) == Accepted
    ensures |Gathered(c, token, b, at, success, notified, n)| == Listed(c, b.workflow, n)
  {
    if n > 0 {
      EveryListedPublishes(c, token, b, at, success, notified, n - 1);
    }
  }

  /** How many of the first `n` services are for a workflow. */
  function Listed(c: Config, w: ScanWorkflow, n: nat): nat
    requires n <= |c.services|
  {
    if n == 0 then 0 else Listed(c, w, n - 1) + if Guard(c.services[n - 1]) == w then 1 else 0
  }

  /** What a poll of a finished scan publishes with the services as they are configured. */
  lemma DeployedPublishes(c: Config, token: nat, b: Body, at: int, success: bool, notified: nat -> Publish)
    requires c.services == DEPLOYED
    ensures OneEach(c)
    ensures var own := if b.workflow == PR then 0 else 1;
      Gathered(c, token, b, at, success, notified, |c.services|)
        == if notified(own) == Accepted then [NoteFor(token, b, at, success)] else []
  {
    OwnServicePublishes(c, token, b, at, success, notified, if b.workflow == PR then 0 else 1, |c.services|);
  }

  function At(s: State, id: nat, p: Progress, polled: bool): State
    requires id in s.msgs
  {
    s.(msgs := s.msgs[id := Moved(s.msgs[id], InHand(p), polled)])
  }

  /** The final ack or nack of a delivery. */
  function Settled(s: State, id: nat): State
    requires id in s.msgs && s.msgs[id].place.InHand?
  {
    match s.msgs[id].place.progress
    case Expiring => Ended(s, id, Expired)
    case Notified => Ended(s, id, Finished)
    case Stopping => Ended(s, id, Stopped)
    case Failing => Ended(s, id, Dropped)
    case Republished => s.(msgs := s.msgs - {id})
    case Refusing => s.(msgs := s.msgs[id := s.msgs[id].(place := Ready)])
    case _ => s
  }

  // What each call of the handler does to the broker.

  lemma ExpiryChecked(c: Config, s: State, id: nat)
    requires HeldAt(s, id, Received)
    ensures var expired := s.now >= s.msgs[id].body.dropBy;
      Apply(c, s, CheckExpiry(id)) == At(s, id, if expired then Expiring else Checked(s.now), !expired)
  {
  }

  lemma ChannelTried(c: Config, s: State, id: nat, opens: bool, at: int)
    requires HeldAt(s, id, Checked(at))
    ensures Apply(c, s, OpenChannel(id, opens)) == At(s, id, if opens then ChannelOpen(at) else Failing, false)
  {
  }

  lemma InspectorTried(c: Config, s: State, id: nat, answer: Inspection, at: int)
    requires HeldAt(s, id, ChannelOpen(at))
    ensures var b := s.msgs[id].body;
      Apply(c, s, Inspect(id, answer)) == At(s, id,
        if answer == Answered && b.scan in s.finished then AfterCalls(c, at, s.finished[b.scan], 0)
        else if answer == ResponseError then Stopping else Requeueing, false)
  {
  }

  lemma ReplacementTried(c: Config, s: State, id: nat, outcome: Publish)
    requires HeldAt(s, id, Requeueing)
    ensures Apply(c, s, Republish(id, outcome)) == Published(c, s, id, outcome)
  {
  }

  /** The points at which a delivery is acked or nacked next. */
  predicate Settling(p: Progress)
  {
    p == Expiring || p == Notified || p == Stopping || p == Republished || p == Refusing || p == Failing
  }

  lemma SettleConcludes(c: Config, s: State, id: nat, p: Progress)
    requires HeldAt(s, id, p) && (p == Expiring || p == Notified || p == Stopping || p == Failing)
    ensures Apply(c, s, Settle(id)) == Settled(s, id)
  {
  }

  lemma SettleForgets(c: Config, s: State, id: nat)
    requires HeldAt(s, id, Republished)
    ensures Apply(c, s, Settle(id)) == Settled(s, id)
  {
  }

  lemma SettleReturns(c: Config, s: State, id: nat)
    requires HeldAt(s, id, Refusing)
    ensures Apply(c, s, Settle(id)) == Settled(s, id)
  {
  }

  lemma SettleIs(c: Config, s: State, id: nat)
    requires id in s.msgs && s.msgs[id].place.InHand? && Settling(s.msgs[id].place.progress)
    ensures Apply(c, s, Settle(id)) == Settled(s, id)
  {
    var p := s.msgs[id].place.progress;
    if p == Republished {
      SettleForgets(c, s, id);
    } else if p == Refusing {
      SettleReturns(c, s, id);
    } else {
      SettleConcludes(c, s, id, p);
    }
  }

  lemma AtAt(s: State, id: nat, p: Progress, q: Progress)
    requires id in s.msgs
    ensures At(At(s, id, p, true), id, q, false) == At(s, id, q, true)
  {
    assert At(At(s, id, p, true), id, q, false).msgs == At(s, id, q, true).msgs;
  }

  lemma EndedAt(s: State, id: nat, p: Progress, polled: bool, how: Conclusion)
    requires id in s.msgs
    ensures Ended(At(s, id, p, polled), id, how) == Ended(s, id, how)
  {
    assert At(s, id, p, polled).msgs - {id} == s.msgs - {id};
  }

  /** The broker once the replacement was published, refused or lost. */
  function Published(c: Config, s: State, id: nat, outcome: Publish): State
    requires id in s.msgs
  {
    match outcome
    case Accepted =>
      var t := At(s, id, Republished, false);
      t.(msgs := t.msgs[t.nextId := Replacement(c, t.now, s.msgs[id])], nextId := t.nextId + 1)
    case Refused => At(s, id, Refusing, false)
    case Raised => At(s, id, Failing, false)
  }

  /** Publishing from the finally block, then settling. */
  lemma PublishedAt(c: Config, s: State, id: nat, outcome: Publish)
    requires id in s.msgs && id < s.nextId
    ensures var t := Published(c, At(s, id, Requeueing, true), id, outcome);
      && id in t.msgs && t.msgs[id].place.InHand? && Settling(t.msgs[id].place.progress)
      && Settled(t, id) == Requeued(c, s, id, outcome)
  {
    match outcome
    case Accepted => AcceptedAt(c, s, id);
    case Refused => RefusedAt(c, s, id);
    case Raised =>
      AtAt(s, id, Requeueing, Failing);
      EndedAt(s, id, Failing, true, Dropped);
  }

  lemma AcceptedAt(c: Config, s: State, id: nat)
    requires id in s.msgs && id < s.nextId
    ensures var t := Published(c, At(s, id, Requeueing, true), id, Accepted);
      && id in t.msgs && t.msgs[id].place == InHand(Republished)
      && Settled(t, id) == Requeued(c, s, id, Accepted)
  {
    var held := At(s, id, Requeueing, true);
    var t := Published(c, held, id, Accepted);
    AtAt(s, id, Requeueing, Republished);
    assert Replacement(c, s.now, held.msgs[id]) == Replacement(c, s.now, Polled(s.msgs[id]));
    assert t.msgs - {id} == (s.msgs - {id})[s.nextId := Replacement(c, s.now, Polled(s.msgs[id]))];
  }

  lemma RefusedAt(c: Config, s: State, id: nat)
    requires id in s.msgs
    ensures var t := Published(c, At(s, id, Requeueing, true), id, Refused);
      && id in t.msgs && t.msgs[id].place == InHand(Refusing)
      && Settled(t, id) == Requeued(c, s, id, Refused)
  {
    var t := Published(c, At(s, id, Requeueing, true), id, Refused);
    AtAt(s, id, Requeueing, Refusing);
    assert t.msgs[id := t.msgs[id].(place := Ready)] == s.msgs[id := Polled(s.msgs[id]).(place := Ready)];
  }
}
