/** The three agents of the delegated protocol as code, one delivery from start to end. */
module Agents {
  import opened Numbers
  import opened Options
  import opened Delegated

  /** The exception in flight, if any. */
  datatype Exc = NoExc | CalledProcessError(code: int) | OtherExc

  class ResolverRunnerAgent {
    const keys: Keys
    var published: seq<Result>

    constructor (keys: Keys)
      ensures this.keys == keys && published == []
    {
      this.keys, published := keys, [];
    }

    /** deliver_delegated_scan_outcome: a refusal is ignored, an exception is not. */
    method Deliver(r: Result, outcome: Publish) returns (exc: Exc)
      modifies this
      ensures published == old(published) + if outcome == Accepted then [r] else []
      ensures exc == if outcome == Raised then OtherExc else NoExc
    {
      if outcome == Accepted {
        published := published + [r];
      }
      exc := if outcome == Raised then OtherExc else NoExc;
    }

    /** The body of the runner's context: signature gate, capability, work, result. */
    method Body(token: nat, r: Request, env: AgentEnv) returns (exc: Exc, bound: bool)
      requires env.enters
      modifies this
      ensures bound == env.binds
      ensures published == old(published) + if Publishes(keys, r, env) then [BodyResult(token, r, env)] else []
      ensures exc != NoExc <==> BodyRaises(keys, r, env)
      ensures exc.CalledProcessError? <==>
        BodyRaises(keys, r, env) && bound && env.capability == Capable && env.work.CallFailed?
      ensures exc.CalledProcessError? ==> exc.code == env.work.exitCode
    {
      exc, bound := NoExc, false;
      if !env.binds {
        return OtherExc, false;
      }
      bound := true;
      if !keys.verify(r.signature, r.details) {
        return;
      }
      if env.capability == CapabilityRaises {
        return OtherExc, true;
      }
      if env.capability == Incapable {
        exc := Deliver(MakeResult(token, r, Failure, None, None), env.publish);
        return;
      }
      match env.work {
        case CallFailed(code) => return CalledProcessError(code), true;
        case WorkRaised => return OtherExc, true;
        case Scanned(scanId, code) =>
          var state := if code == 0 then Done else Failure;
          exc := Deliver(MakeResult(token, r, state, Some(scanId), Some(code)), env.publish);
          if env.tailRaises {
            exc := OtherExc;
          }
      }
    }

    /** The runner is up, the key loads and the signature is good. */
    ghost predicate Admitted(r: Request, env: AgentEnv)
    {
      env.enters && env.binds && keys.verify(r.signature, r.details)
    }

    /** __call__: the published results and the fate of the request are the ones the protocol model uses. */
    method Call(token: nat, r: Request, env: AgentEnv) returns (d: Disposition)
      modifies this
      ensures published == old(published) + AgentResults(keys, token, r, env)
      ensures d == AgentDisposition(keys, r, env)
      // a scan that ran: its result is published first, with its id and code, and says Done iff the code is zero
      ensures Admitted(r, env) && env.capability == Capable && env.work.Scanned? && env.publish == Accepted ==>
          |published| > |old(published)| &&
          published[|old(published)|] == Result(token, r.moniker, r.workflow, r.details, r.signature,
            if env.work.exitCode == 0 then Done else Failure, Some(env.work.scanId), Some(env.work.exitCode))
      // an agent that can't run says so
      ensures Admitted(r, env) && env.capability == Incapable && env.publish == Accepted ==>
          |published| > |old(published)| &&
          published[|old(published)|]
            == Result(token, r.moniker, r.workflow, r.details, r.signature, Failure, None, None)
      // a resolver call that fails is reported with its exit code, and the request is rejected
      ensures (Admitted(r, env) && env.runner == SingleStage && env.capability == Capable && env.work.CallFailed?
               && !env.exitRaises && env.failurePublish == Accepted) ==>
          d == Rejected &&
          published == old(published)
            + [Result(token, r.moniker, r.workflow, r.details, r.signature, Failure, None, Some(env.work.exitCode))]
      // a bad signature is acked without a result
      ensures env.enters && env.binds && !keys.verify(r.signature, r.details) && !env.exitRaises ==>
        published == old(published) && d == Acked
      // nothing is settled when the executor, the key or the failure response itself fails
      ensures !env.enters ==> d == Unsettled && published == old(published)
      ensures env.enters && !env.binds && env.runner == SingleStage ==> d == Unsettled && published == old(published)
    {
      var workflowBound := false;
      var exc := NoExc;
      if !env.enters {
        exc := OtherExc;
      } else {
        exc, workflowBound := Body(token, r, env);
        // leaving the context
        if env.exitRaises {
          exc := OtherExc;
        } else if env.runner == TwoStage {
          exc := NoExc;
        }
      }
      if exc == NoExc {
        return Acked;
      }
      if !workflowBound {
        return Unsettled; // naming the unbound workflow raises inside the except block
      }
      var code := if exc.CalledProcessError? then Some(exc.code) else None;
      var again := Deliver(MakeResult(token, r, Failure, None, code), env.failurePublish);
      return if again == NoExc then Rejected else Unsettled;
    }
  }

  class ResolverTimeoutAgent {
    const keys: Keys
    var results: seq<Result>
    var requests: seq<(Request, int)> // resubmitted, with the retry header

    constructor (keys: Keys)
      ensures this.keys == keys && results == [] && requests == []
    {
      this.keys, results, requests := keys, [], [];
    }

    /**
     __call__ with handle_resolver_scan_timeout. Each delivery publishes at most one message: a resubmission
     with a smaller, still positive header, or the failure result; a rejected copy publishes nothing.
     */
    method Call(c: Config, id: nat, m: Message, publish: Publish) returns (d: Disposition)
      requires c.keys == keys && m.place.Dead?
      modifies this
      ensures d != Unsettled
      // only a bad signature or a publish that raises is rejected
      ensures d == Rejected <==>
        || !keys.verify(m.request.signature, m.request.details)
        || (m.place.reason == ByExpiry && publish == Raised)
      // an expired request with attempts left goes out again with one less, otherwise its failure does
      ensures keys.verify(m.request.signature, m.request.details) && m.place.reason == ByExpiry
              && publish == Accepted ==>
        if m.retries >= 2 then
          results == old(results) && requests == old(requests) + [(m.request, m.retries - 1)]
        else
          requests == old(requests) && results == old(results)
            + [Result(m.token, m.request.moniker, m.request.workflow, m.request.details, m.request.signature,
                      Failure, None, None)]
      ensures var f := TimeoutEffect(c, id, m, publish, false);
        && results == old(results) + (if f.Emit? then f.results else [])
        && requests == old(requests) + (if f.Resubmit? then [(m.request, Resubmitted(0, m).retries)] else [])
      ensures |results| + |requests| <= |old(results)| + |old(requests)| + 1
      ensures m.place.reason == ByRejection ==> results == old(results) && requests == old(requests)
    {
      if !keys.verify(m.request.signature, m.request.details) {
        return Rejected;
      }
      if m.place.reason == ByExpiry {
        var resubmitCount := m.retries - 1;
        if publish == Raised {
          return Rejected;
        }
        if resubmitCount > 0 {
          if publish == Accepted {
            requests := requests + [(m.request, Max(resubmitCount, 0))];
          }
        } else {
          if publish == Accepted {
            results := results + [MakeResult(m.token, m.request, Failure, None, None)];
          }
        }
      }
      return Acked;
    }
  }

  class ResolverResultsAgent {
    const keys: Keys
    var dispatched: seq<string> // scans handed to their orchestrator's delegated workflow

    constructor (keys: Keys)
      ensures this.keys == keys && dispatched == []
    {
      this.keys, dispatched := keys, [];
    }

    /**
     __call__: the workflow of a scan starts exactly when the protocol model says this result starts one; a
     result with a bad signature or without a scan id is acked all the same.
     */
    method Call(c: Config, s: State, index: nat, dispatchFails: bool) returns (d: Disposition)
      requires c.keys == keys && index < |s.results| && index !in s.handled
      modifies this
      ensures Effects(c, s, ResultArrives(index, dispatchFails)).Handle?
      ensures var start := Effects(c, s, ResultArrives(index, dispatchFails)).start;
        && (start ==> s.results[index].scanId.Some? && d == Acked)
        && dispatched == old(dispatched) + (if start then [s.results[index].scanId.value] else [])
      // every validly signed result with a scan starts its workflow, done or failed
      ensures (keys.verify(s.results[index].signature, s.results[index].details) && s.results[index].scanId.Some?
               && !dispatchFails) ==>
        d == Acked && dispatched == old(dispatched) + [s.results[index].scanId.value]
      ensures !keys.verify(s.results[index].signature, s.results[index].details) || s.results[index].scanId.None? ==>
        d == Acked && dispatched == old(dispatched)
      ensures d == Rejected <==>
        dispatchFails && s.results[index].scanId.Some?
          && keys.verify(s.results[index].signature, s.results[index].details)
      ensures d != Unsettled
    {
      var r := s.results[index];
      if keys.verify(r.signature, r.details) && r.scanId.Some? {
        if dispatchFails {
          return Rejected;
        }
        dispatched := dispatched + [r.scanId.value];
      }
      return Acked;
    }
  }
}
