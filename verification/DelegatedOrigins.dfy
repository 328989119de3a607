/** Where delegated requests and their results come from, and what state a result may carry. */
module DelegatedOrigins {
  import opened Names
  import opened Options
  import opened Delegated
  import opened DelegatedRuns

  // ---- starting a request

  /**
   A kickoff under a known tag whose publish is accepted adds exactly one request, queued, for that very
   moniker, workflow, tag and details, signed, with the configured retries; any other kickoff adds nothing.
   */
  lemma KickoffAdds(c: Config, s: State, moniker: string, workflow: ScanWorkflow, tag: string, details: Details,
                    accepted: bool)
    requires WellFormed(s)
    ensures var s' := Apply(c, s, Kickoff(moniker, workflow, tag, details, accepted));
      if tag !in c.tags || !accepted then s' == s
      else
        && s.nextId !in s.msgs && s'.msgs.Keys == s.msgs.Keys + {s.nextId}
        && (forall id :: id in s.msgs ==> s'.msgs[id] == s.msgs[id])
        && s.nextToken !in s.started && s'.results == s.results && s'.now == s.now
        && var m := s'.msgs[s.nextId];
           && m.place == Queued && m.since == s.now && m.token == s.nextToken
           && m.retries == (if c.retries > 0 then c.retries else 0)
           && m.request.moniker == moniker && m.request.workflow == workflow && m.request.tag == tag
           && m.request.details == details && m.request.signature == c.keys.sign(details)
  {
  }

  /** This event asked for this request. */
  ghost predicate AskedBy(e: Event, q: Request)
  {
    && e.Kickoff? && e.accepted
    && q.moniker == e.moniker && q.workflow == e.workflow && q.tag == e.tag && q.details == e.details
  }

  lemma EffectsAsked(c: Config, s: State, e: Event)
    ensures Effects(c, s, e).Create? ==> AskedBy(e, Effects(c, s, e).request)
  {
  }

  lemma CommitOrigins(c: Config, s: State, f: Effect, t: nat)
    requires Applicable(s, f) && WellFormed(s) && t in Commit(c, s, f).started
    ensures t in s.started ==> Commit(c, s, f).started[t] == s.started[t]
    ensures t !in s.started ==> f.Create? && Commit(c, s, f).started[t] == f.request
  {
  }

  lemma {:induction false} RequestAsked(c: Config, es: seq<Event>, t: nat) returns (i: nat)
    requires t in Run(c, EMPTY, es).started
    ensures i < |es| && AskedBy(es[i], Run(c, EMPTY, es).started[t])
  {
    i := 0;
    if es != [] {
      var before, e := Run(c, EMPTY, es[..|es| - 1]), es[|es| - 1];
      RunWellFormed(c, es[..|es| - 1]);
      RunLast(c, EMPTY, es);
      EffectsApplicable(c, before, e);
      EffectsAsked(c, before, e);
      CommitOrigins(c, before, Effects(c, before, e), t);
      if t in before.started {
        i := RequestAsked(c, es[..|es| - 1], t);
      } else {
        i := |es| - 1;
      }
    }
  }

  /** In any run every result names exactly the moniker, workflow and details of one event that asked for it. */
  lemma ResultsFromKickoffs(c: Config, es: seq<Event>, k: nat) returns (i: nat)
    requires k < |Run(c, EMPTY, es).results|
    ensures i < |es| && es[i].Kickoff? && es[i].accepted
    ensures var r := Run(c, EMPTY, es).results[k];
      r.moniker == es[i].moniker && r.workflow == es[i].workflow && r.details == es[i].details
  {
    RunSigned(c, es);
    i := RequestAsked(c, es, Run(c, EMPTY, es).results[k].token);
  }

  // ---- what a delivery does to its message

  /**
   What an agent leaves of a request: gone when it was acknowledged, in the timeout queue as a rejected copy when
   it was rejected, unacknowledged for good when neither happened. No other message is touched.
   */
  lemma AgentSettles(c: Config, s: State, id: nat, env: AgentEnv)
    requires id in s.msgs && s.msgs[id].place == WithAgent
    ensures var s', m := Apply(c, s, AgentRuns(id, env)), s.msgs[id];
      && (forall k :: k in s.msgs && k != id ==> k in s'.msgs && s'.msgs[k] == s.msgs[k])
      && s'.results == s.results + AgentResults(c.keys, m.token, m.request, env)
      && match AgentDisposition(c.keys, m.request, env)
         case Acked => s'.msgs.Keys == s.msgs.Keys - {id}
         case Rejected => s'.msgs.Keys == s.msgs.Keys && s'.msgs[id] == m.(place := Dead(ByRejection))
         case Unsettled => s'.msgs.Keys == s.msgs.Keys && s'.msgs[id] == m.(place := Abandoned)
  {
  }

  /** What the timeout handler owes a dead message: another attempt, or a failure result, or nothing. */
  ghost predicate GivenUp(s: State, s': State, m: Message)
  {
    && s'.results == s.results + [Result(m.token, m.request.moniker, m.request.workflow, m.request.details,
                                         m.request.signature, Failure, None, None)]
    && s.nextId == s'.nextId
  }

  ghost predicate TriedAgain(s: State, s': State, m: Message)
  {
    && s'.results == s.results && s'.nextId == s.nextId + 1 && s.nextId in s'.msgs
    && s'.msgs[s.nextId] == Message(m.token, m.request, m.retries - 1, s.now, Queued)
  }

  /**
   The timeout handler always takes a dead message off its queue. It tries an expired one again while more than
   one attempt is left and gives it up otherwise; a forged or rejected one, or one whose publish is refused or
   raises, is lost without a message.
   */
  lemma TimeoutSettles(c: Config, s: State, id: nat, publish: Publish)
    requires WellFormed(s) && id in s.msgs && s.msgs[id].place.Dead?
    ensures var s', m := Apply(c, s, TimeoutRuns(id, publish)), s.msgs[id];
      && id !in s'.msgs && (forall k :: k in s.msgs && k != id ==> k in s'.msgs && s'.msgs[k] == s.msgs[k])
      && if c.keys.verify(m.request.signature, m.request.details) && m.place.reason == ByExpiry && publish == Accepted
         then if m.retries >= 2 then TriedAgain(s, s', m) else GivenUp(s, s', m)
         else s'.results == s.results && s'.nextId == s.nextId
  {
  }

  /** A crash behind the publish has done the same and leaves the dead message for another delivery. */
  lemma TimeoutCrashRepeats(c: Config, s: State, id: nat)
    requires WellFormed(s) && id in s.msgs && s.msgs[id].place == Dead(ByExpiry)
    requires c.keys.verify(s.msgs[id].request.signature, s.msgs[id].request.details)
    ensures var s', m := Apply(c, s, TimeoutCrashes(id)), s.msgs[id];
      && id in s'.msgs && s'.msgs[id] == m
      && if m.retries >= 2 then TriedAgain(s, s', m) else GivenUp(s, s', m)
  {
  }

  // ---- the state of a result

  /** Done means a scan whose resolver exited with zero, and nothing else does; a failure may still carry a scan. */
  predicate Stated(r: Result)
  {
    && (r.state == Done <==> r.scanId.Some? && r.exitCode == Some(0))
    && (r.scanId.Some? ==> r.exitCode.Some?)
  }

  lemma AgentResultsStated(k: Keys, t: nat, q: Request, env: AgentEnv)
    ensures forall i :: 0 <= i < |AgentResults(k, t, q, env)| ==> Stated(AgentResults(k, t, q, env)[i])
  {
  }

  lemma EffectsStated(c: Config, s: State, e: Event)
    ensures var f := Effects(c, s, e); f.Emit? ==> forall i :: 0 <= i < |f.results| ==> Stated(f.results[i])
  {
    if (e.AgentRuns? || e.AgentCrashes?) && e.id in s.msgs {
      AgentResultsStated(c.keys, s.msgs[e.id].token, s.msgs[e.id].request, e.env);
    }
  }

  lemma CommitStated(c: Config, s: State, f: Effect)
    requires Applicable(s, f) && (f.Emit? ==> forall i :: 0 <= i < |f.results| ==> Stated(f.results[i]))
    requires forall i :: 0 <= i < |s.results| ==> Stated(s.results[i])
    ensures forall i :: 0 <= i < |Commit(c, s, f).results| ==> Stated(Commit(c, s, f).results[i])
  {
  }

  /** In every run, crashes included, a result says Done iff it carries a scan and a zero exit code. */
  lemma {:induction false} ResultStates(c: Config, es: seq<Event>)
    ensures forall i :: 0 <= i < |Run(c, EMPTY, es).results| ==>
      var r := Run(c, EMPTY, es).results[i];
      (r.state == Done <==> r.scanId.Some? && r.exitCode == Some(0)) && (r.scanId.Some? ==> r.exitCode.Some?)
  {
    if es != [] {
      var before, e := Run(c, EMPTY, es[..|es| - 1]), es[|es| - 1];
      ResultStates(c, es[..|es| - 1]);
      assert forall i :: 0 <= i < |before.results| ==> Stated(before.results[i]);
      EffectsApplicable(c, before, e);
      EffectsStated(c, before, e);
      CommitStated(c, before, Effects(c, before, e));
      RunLast(c, EMPTY, es);
      assert forall i :: 0 <= i < |Run(c, EMPTY, es).results| ==> Stated(Run(c, EMPTY, es).results[i]);
    }
  }

  /** This event is an agent's delivery that made this scan, with this exit code. */
  ghost predicate ScannedBy(e: Event, scanId: string, code: Option<int>)
  {
    && (e.AgentRuns? || e.AgentCrashes?)
    && e.env.work.Scanned? && e.env.work.scanId == scanId && code == Some(e.env.work.exitCode)
  }

  lemma EffectsScanned(c: Config, s: State, e: Event)
    ensures var f := Effects(c, s, e);
      f.Emit? ==> forall i :: 0 <= i < |f.results| && f.results[i].scanId.Some? ==>
        ScannedBy(e, f.results[i].scanId.value, f.results[i].exitCode)
  {
  }

  lemma CommitResults(c: Config, s: State, f: Effect, k: nat)
    requires Applicable(s, f) && k < |Commit(c, s, f).results|
    ensures k < |s.results| ==> Commit(c, s, f).results[k] == s.results[k]
    ensures k >= |s.results| ==>
      f.Emit? && k - |s.results| < |f.results| && Commit(c, s, f).results[k] == f.results[k - |s.results|]
  {
  }

  /** In every run the scan a result names was made by one agent delivery, which exited with the code it names. */
  lemma {:induction false} ScansFromAgents(c: Config, es: seq<Event>, k: nat) returns (i: nat)
    requires k < |Run(c, EMPTY, es).results| && Run(c, EMPTY, es).results[k].scanId.Some?
    ensures i < |es|
    ensures var r := Run(c, EMPTY, es).results[k]; ScannedBy(es[i], r.scanId.value, r.exitCode)
  {
    i := 0;
    if es != [] {
      var before, e := Run(c, EMPTY, es[..|es| - 1]), es[|es| - 1];
      RunLast(c, EMPTY, es);
      EffectsApplicable(c, before, e);
      EffectsScanned(c, before, e);
      CommitResults(c, before, Effects(c, before, e), k);
      if k < |before.results| {
        i := ScansFromAgents(c, es[..|es| - 1], k);
      } else {
        i := |es| - 1;
      }
    }
  }
}
