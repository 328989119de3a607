/** What every run of the delegated scan protocol keeps. */
module DelegatedRuns {
  import opened Options
  import opened Names
  import opened Delegated
  import T = Topology

  // ---- what the effects rely on

  /** A result about a request: same token, details, signature, moniker and workflow. */
  ghost predicate About(r: Result, t: nat, q: Request)
  {
    && r.token == t && r.moniker == q.moniker && r.workflow == q.workflow
    && r.details == q.details && r.signature == q.signature
  }

  ghost predicate AllAbout(rs: seq<Result>, t: nat, q: Request)
  {
    forall i :: 0 <= i < |rs| ==> About(rs[i], t, q)
  }

  ghost predicate OneScan(rs: seq<Result>)
  {
    forall i, j :: 0 <= i < j < |rs| ==> rs[i].scanId.None? || rs[j].scanId.None?
  }

  /** Carries its token: not a rejected copy and not abandoned by its handler. */
  ghost predicate Carrying(m: Message)
  {
    m.place != Dead(ByRejection) && m.place != Abandoned
  }

  ghost predicate Legal(c: Config, s: State, f: Effect, crash: bool)
  {
    match f
    case Create(q) => q.tag in c.tags && q.signature == c.keys.sign(q.details)
    case Move(id, place) =>
      && id in s.msgs
      && ((place == WithAgent && s.msgs[id].place == Queued)
          || (crash && place == Queued && s.msgs[id].place == Abandoned))
    case Die(id, reason) => id in s.msgs && s.msgs[id].place == Queued && reason == ByExpiry
    case Emit(id, rs, after) =>
      && id in s.msgs && Carrying(s.msgs[id])
      && AllAbout(rs, s.msgs[id].token, s.msgs[id].request) && OneScan(rs)
      && (crash || after != Return)
      && (s.msgs[id].place != WithAgent ==>
            && s.msgs[id].place == Dead(ByExpiry) && (after == Remove || after == Return)
            && s.msgs[id].retries - 1 <= 0
            && rs == [MakeResult(s.msgs[id].token, s.msgs[id].request, Failure, None, None)])
    case Resubmit(id, keep) =>
      id in s.msgs && s.msgs[id].place == Dead(ByExpiry) && s.msgs[id].retries - 1 > 0 && (crash || !keep)
    case Discard(id) => id in s.msgs && s.msgs[id].place.Dead?
    case Handle(index, start) =>
      index < |s.results| && index !in s.handled && (start ==> s.results[index].scanId.Some?)
    case _ => true
  }

  lemma AgentResultsAbout(k: Keys, t: nat, q: Request, env: AgentEnv)
    ensures AllAbout(AgentResults(k, t, q, env), t, q) && OneScan(AgentResults(k, t, q, env))
  {
  }

  lemma EffectsLegal(c: Config, s: State, e: Event)
    ensures Legal(c, s, Effects(c, s, e), IsCrash(e))
  {
    if (e.AgentRuns? || e.AgentCrashes?) && e.id in s.msgs {
      AgentResultsAbout(c.keys, s.msgs[e.id].token, s.msgs[e.id].request, e.env);
    }
  }

  ghost predicate WellFormed(s: State)
  {
    && (forall id :: id in s.msgs ==> id < s.nextId && s.msgs[id].token in s.started)
    && (forall t :: t in s.started ==> t < s.nextToken)
    && (forall i :: 0 <= i < |s.results| ==> s.results[i].token in s.started)
  }

  lemma CommitWellFormed(c: Config, s: State, f: Effect, crash: bool)
    requires WellFormed(s) && Legal(c, s, f, crash)
    ensures WellFormed(Commit(c, s, f))
  {
  }

  lemma {:induction false} RunWellFormed(c: Config, es: seq<Event>)
    ensures WellFormed(Run(c, EMPTY, es))
  {
    if es != [] {
      var before, e := Run(c, EMPTY, es[..|es| - 1]), es[|es| - 1];
      RunWellFormed(c, es[..|es| - 1]);
      EffectsLegal(c, before, e);
      CommitWellFormed(c, before, Effects(c, before, e), IsCrash(e));
    }
  }

  // ---- signatures

  /** Every request and every result still carries what was signed at kickoff. */
  ghost predicate Signed(c: Config, s: State)
  {
    && (forall t :: t in s.started ==>
          s.started[t].tag in c.tags && s.started[t].signature == c.keys.sign(s.started[t].details))
    && (forall id :: id in s.msgs ==>
          s.msgs[id].token in s.started && s.msgs[id].request == s.started[s.msgs[id].token])
    && (forall i :: 0 <= i < |s.results| ==>
          s.results[i].token in s.started && About(s.results[i], s.results[i].token, s.started[s.results[i].token]))
  }

  lemma EmitSigned(c: Config, s: State, f: Effect, crash: bool)
    requires f.Emit? && Signed(c, s) && Legal(c, s, f, crash)
    ensures Signed(c, Commit(c, s, f))
  {
    var s' := Commit(c, s, f);
    forall i | 0 <= i < |s'.results|
      ensures s'.results[i].token in s'.started
      ensures About(s'.results[i], s'.results[i].token, s'.started[s'.results[i].token])
    {
      if i >= |s.results| {
        assert About(f.results[i - |s.results|], s.msgs[f.id].token, s.msgs[f.id].request);
      }
    }
  }

  lemma CreateSigned(c: Config, s: State, f: Effect, crash: bool)
    requires f.Create? && WellFormed(s) && Signed(c, s) && Legal(c, s, f, crash)
    ensures Signed(c, Commit(c, s, f))
  {
  }

  lemma ResubmitSigned(c: Config, s: State, f: Effect, crash: bool)
    requires f.Resubmit? && WellFormed(s) && Signed(c, s) && Legal(c, s, f, crash)
    ensures Signed(c, Commit(c, s, f))
  {
  }

  /** An effect that starts no request, and leaves requests and results as they are. */
  lemma OtherSigned(c: Config, s: State, f: Effect, crash: bool)
    requires !f.Emit? && !f.Create? && !f.Resubmit? && Signed(c, s) && Legal(c, s, f, crash)
    ensures Signed(c, Commit(c, s, f))
  {
  }

  lemma CommitSigned(c: Config, s: State, f: Effect, crash: bool)
    requires WellFormed(s) && Signed(c, s) && Legal(c, s, f, crash)
    ensures Signed(c, Commit(c, s, f))
  {
    match f
    case Emit(_, _, _) => EmitSigned(c, s, f, crash);
    case Create(_) => CreateSigned(c, s, f, crash);
    case Resubmit(_, _) => ResubmitSigned(c, s, f, crash);
    case _ => OtherSigned(c, s, f, crash);
  }

  lemma {:induction false} RunSigned(c: Config, es: seq<Event>)
    ensures Signed(c, Run(c, EMPTY, es))
  {
    if es != [] {
      var before, e := Run(c, EMPTY, es[..|es| - 1]), es[|es| - 1];
      RunSigned(c, es[..|es| - 1]);
      RunWellFormed(c, es[..|es| - 1]);
      EffectsLegal(c, before, e);
      CommitSigned(c, before, Effects(c, before, e), IsCrash(e));
    }
  }

  /** In any run, crashes included, no request and no result fails a signature check of any of the three agents. */
  lemma NoSignatureFails(c: Config, es: seq<Event>)
    requires Genuine(c.keys)
    ensures forall id :: id in Run(c, EMPTY, es).msgs ==>
      c.keys.verify(Run(c, EMPTY, es).msgs[id].request.signature, Run(c, EMPTY, es).msgs[id].request.details)
    ensures forall i :: 0 <= i < |Run(c, EMPTY, es).results| ==>
      c.keys.verify(Run(c, EMPTY, es).results[i].signature, Run(c, EMPTY, es).results[i].details)
  {
    RunSigned(c, es);
  }

  /** The places of requests are the ones the bindings give them, for every message of every run. */
  lemma PlacesFollowBindings(c: Config, es: seq<Event>, id: nat, q: T.Queue)
    requires T.ValidTags(c.tags) && id in Run(c, EMPTY, es).msgs
    ensures var r := Run(c, EMPTY, es).msgs[id].request;
      && ValidTag(r.tag) && Ascii(r.tag)
      && (T.Reaches(T.Bindings(c.tags), T.ResolverScanIn, TopicForTag(r.tag, r.moniker), q) <==>
          q == T.ResolverRequests(QueueNameForTag(r.tag)))
      && (T.Reaches(T.Bindings(c.tags), T.ResolverDlx, TopicForTag(r.tag, r.moniker), q) <==> q == T.ResolverTimeout)
  {
    RunSigned(c, es);
    var r := Run(c, EMPTY, es).msgs[id].request;
    T.RequestReachesExactly(c.tags, r.tag, r.moniker, q);
    T.DeadRequestReachesTimeout(c.tags, r.tag, r.moniker, q);
  }

  // ---- at most one scan per request

  /** Not a rejected copy. */
  ghost predicate Live(m: Message)
  {
    m.place != Dead(ByRejection)
  }

  /** One message per request besides rejected copies, no result yet while it can still be run, one scan at most. */
  ghost predicate Once(s: State)
  {
    && (forall i, j :: i in s.msgs && j in s.msgs && Live(s.msgs[i]) && Live(s.msgs[j]) ==>
          s.msgs[i].token == s.msgs[j].token ==> i == j)
    && (forall id :: id in s.msgs && Carrying(s.msgs[id]) ==> !HasResult(s, s.msgs[id].token))
    && (forall i, j :: 0 <= i < j < |s.results| && s.results[i].token == s.results[j].token
          ==> s.results[i].scanId.None? || s.results[j].scanId.None?)
  }

  /** What a crash may do without repeating anything: no published result, no kept copy, no request with a result. */
  ghost predicate Fresh(s: State, f: Effect)
  {
    match f
    case Emit(_, rs, after) => after == Return ==> rs == []
    case Resubmit(_, keep) => !keep
    case Move(id, place) => id in s.msgs && (s.msgs[id].place == Queued || !HasResult(s, s.msgs[id].token))
    case _ => true
  }

  lemma EmitResults(c: Config, s: State, f: Effect, crash: bool, t: nat)
    requires f.Emit? && Legal(c, s, f, crash) && HasResult(Commit(c, s, f), t)
    ensures HasResult(s, t) || (f.results != [] && t == s.msgs[f.id].token)
  {
    var s' := Commit(c, s, f);
    var k :| 0 <= k < |s'.results| && s'.results[k].token == t;
    if k < |s.results| {
      assert s.results[k].token == t;
    } else {
      assert About(f.results[k - |s.results|], s.msgs[f.id].token, s.msgs[f.id].request);
    }
  }

  lemma EmitOnce(c: Config, s: State, f: Effect, crash: bool)
    requires f.Emit? && Once(s) && Legal(c, s, f, crash) && Fresh(s, f)
    ensures Once(Commit(c, s, f))
  {
    var s' := Commit(c, s, f);
    assert forall i :: |s.results| <= i < |s'.results| ==> s'.results[i] == f.results[i - |s.results|];
    assert forall i :: |s.results| <= i < |s'.results| ==> s'.results[i].token == s.msgs[f.id].token;
    forall id | id in s'.msgs && Carrying(s'.msgs[id]) ensures !HasResult(s', s'.msgs[id].token) {
      assert id in s.msgs && Live(s.msgs[id]) && s.msgs[id].token == s'.msgs[id].token;
      if HasResult(s', s.msgs[id].token) {
        EmitResults(c, s, f, crash, s.msgs[id].token);
      }
    }
  }

  lemma SameResults(s: State, s': State, t: nat)
    requires s'.results == s.results
    ensures HasResult(s', t) <==> HasResult(s, t)
  {
  }

  lemma CreateOnce(c: Config, s: State, f: Effect, crash: bool)
    requires f.Create? && WellFormed(s) && Once(s) && Legal(c, s, f, crash)
    ensures Once(Commit(c, s, f))
  {
  }

  lemma ResubmitOnce(c: Config, s: State, f: Effect, crash: bool)
    requires f.Resubmit? && WellFormed(s) && Once(s) && Legal(c, s, f, crash) && Fresh(s, f)
    ensures Once(Commit(c, s, f))
  {
    assert Carrying(s.msgs[f.id]);
  }

  lemma MoveOnce(c: Config, s: State, f: Effect, crash: bool)
    requires f.Move? && Once(s) && Legal(c, s, f, crash) && Fresh(s, f)
    ensures Once(Commit(c, s, f))
  {
    var s' := Commit(c, s, f);
    forall id | id in s'.msgs && Carrying(s'.msgs[id]) ensures !HasResult(s', s'.msgs[id].token) {
      SameResults(s, s', s'.msgs[id].token);
    }
  }

  lemma OtherOnce(c: Config, s: State, f: Effect, crash: bool)
    requires !f.Emit? && !f.Create? && !f.Resubmit? && !f.Move? && Once(s) && Legal(c, s, f, crash)
    ensures Once(Commit(c, s, f))
  {
    var s' := Commit(c, s, f);
    forall id | id in s'.msgs && Carrying(s'.msgs[id]) ensures !HasResult(s', s'.msgs[id].token) {
      assert Carrying(s.msgs[id]);
      SameResults(s, s', s'.msgs[id].token);
    }
  }

  lemma CommitOnce(c: Config, s: State, f: Effect, crash: bool)
    requires WellFormed(s) && Once(s) && Legal(c, s, f, crash) && Fresh(s, f)
    ensures Once(Commit(c, s, f))
  {
    match f
    case Emit(_, _, _) => EmitOnce(c, s, f, crash);
    case Create(_) => CreateOnce(c, s, f, crash);
    case Resubmit(_, _) => ResubmitOnce(c, s, f, crash);
    case Move(_, _) => MoveOnce(c, s, f, crash);
    case _ => OtherOnce(c, s, f, crash);
  }

  // ---- which crashes do harm

  /**
   A crash that repeats nothing: of an agent before its first publish, or the redelivery of a request without
   a result. The timeout handler crashing between its publish and its ack always repeats it.
   */
  ghost predicate Harmless(c: Config, s: State, e: Event)
  {
    match e
    case AgentCrashes(_, _, _) => Effects(c, s, e).Emit? ==> Effects(c, s, e).results == []
    case TimeoutCrashes(_) => Effects(c, s, e) == Nothing
    case Redeliver(id) => id in s.msgs && s.msgs[id].place == Abandoned ==> !HasResult(s, s.msgs[id].token)
    case _ => true
  }

  lemma HarmlessFresh(c: Config, s: State, e: Event)
    requires Harmless(c, s, e)
    ensures Fresh(s, Effects(c, s, e))
  {
  }

  /** The other crashes leave a request that can be run though it has a result, or two of it. */
  lemma HarmfulAgent(c: Config, s: State, e: Event)
    requires WellFormed(s) && Once(s) && !e.TimeoutCrashes? && !Harmless(c, s, e)
    ensures !Once(Apply(c, s, e))
  {
    var s', f := Apply(c, s, e), Effects(c, s, e);
    if e.AgentCrashes? {
      EffectsLegal(c, s, e);
      assert s'.results[|s.results|] == f.results[0] && About(f.results[0], s.msgs[f.id].token, s.msgs[f.id].request);
    } else {
      SameResults(s, s', s.msgs[e.id].token);
    }
    assert Carrying(s'.msgs[f.id]) && HasResult(s', s'.msgs[f.id].token);
  }

  lemma HarmfulTimeout(c: Config, s: State, e: Event)
    requires WellFormed(s) && Once(s) && e.TimeoutCrashes? && !Harmless(c, s, e)
    ensures !Once(Apply(c, s, e))
  {
    var s', f := Apply(c, s, e), Effects(c, s, e);
    if f.Resubmit? {
      assert Live(s'.msgs[f.id]) && Live(s'.msgs[s.nextId]) && s'.msgs[f.id].token == s'.msgs[s.nextId].token;
    } else {
      assert s'.results[|s.results|].token == s.msgs[f.id].token;
      assert Carrying(s'.msgs[f.id]) && HasResult(s', s'.msgs[f.id].token);
    }
  }

  lemma StepExactly(c: Config, s: State, e: Event)
    requires WellFormed(s) && Once(s)
    ensures Once(Apply(c, s, e)) <==> Harmless(c, s, e)
  {
    if Harmless(c, s, e) {
      EffectsLegal(c, s, e);
      HarmlessFresh(c, s, e);
      CommitOnce(c, s, Effects(c, s, e), IsCrash(e));
    } else if e.TimeoutCrashes? {
      HarmfulTimeout(c, s, e);
    } else {
      HarmfulAgent(c, s, e);
    }
  }

  ghost predicate HarmlessRun(c: Config, es: seq<Event>)
  {
    Each(c, EMPTY, es, (s: State, e: Event) => Harmless(c, s, e))
  }

  /** Nothing is repeated at any point of a run exactly when every crash in it is harmless. */
  lemma {:induction false} OnceExactly(c: Config, es: seq<Event>)
    ensures Always(c, EMPTY, es, Once) <==> HarmlessRun(c, es)
  {
    if es != [] {
      OnceExactly(c, es[..|es| - 1]);
      RunWellFormed(c, es[..|es| - 1]);
      RunLast(c, EMPTY, es);
      if Always(c, EMPTY, es[..|es| - 1], Once) {
        StepExactly(c, Run(c, EMPTY, es[..|es| - 1]), es[|es| - 1]);
      }
    }
  }

  lemma RunOnce(c: Config, es: seq<Event>)
    requires HarmlessRun(c, es)
    ensures Once(Run(c, EMPTY, es))
  {
    OnceExactly(c, es);
  }

  lemma {:induction false} CrashFreeHarmless(c: Config, es: seq<Event>)
    requires CrashFree(es)
    ensures HarmlessRun(c, es)
  {
    if es != [] {
      CrashFreeHarmless(c, es[..|es| - 1]);
    }
  }

  /** In a run with harmless crashes only, a request has at most one result carrying a scan id, whatever its runners. */
  lemma AtMostOneScan(c: Config, es: seq<Event>, i: nat, j: nat)
    requires HarmlessRun(c, es) && i < |Run(c, EMPTY, es).results| && j < |Run(c, EMPTY, es).results|
    requires Run(c, EMPTY, es).results[i].token == Run(c, EMPTY, es).results[j].token
    requires Run(c, EMPTY, es).results[i].scanId.Some? && Run(c, EMPTY, es).results[j].scanId.Some?
    ensures i == j
  {
    RunOnce(c, es);
  }

  /** An agent that submits its scan, publishes the result and only then can crash. */
  ghost predicate Scans(k: Keys, q: Request, env: AgentEnv)
  {
    Publishes(k, q, env) && env.capability == Capable && env.work.Scanned? && env.runner == SingleStage
    && !env.tailRaises && !env.exitRaises
  }

  /** From any state, an agent crashing after its publish and before its ack leads to a second scan of the request. */
  lemma CrashScansAgain(c: Config, s: State, id: nat, env: AgentEnv)
    requires id in s.msgs && s.msgs[id].place == WithAgent && Scans(c.keys, s.msgs[id].request, env)
    ensures var rs := Run(c, s, [AgentCrashes(id, env, 1), Take(id), AgentRuns(id, env)]).results;
      && |rs| == |s.results| + 2
      && rs[|s.results|].token == rs[|s.results| + 1].token == s.msgs[id].token
      && rs[|s.results|].scanId.Some? && rs[|s.results| + 1].scanId.Some?
  {
    var m := s.msgs[id];
    RunThree(c, s, AgentCrashes(id, env, 1), Take(id), AgentRuns(id, env));
    var result := BodyResult(m.token, m.request, env);
    assert AgentResults(c.keys, m.token, m.request, env) == [result];
    assert [result][..1] == [result];
    var s1 := Apply(c, s, AgentCrashes(id, env, 1));
    assert s1.results == s.results + [result] && s1.msgs[id] == m.(place := Queued);
    var s2 := Apply(c, s1, Take(id));
    assert s2.results == s1.results && s2.msgs[id] == m;
  }

  /** Each feedback start comes from its own handled result with a scan id. */
  ghost predicate FeedbackBacked(s: State)
  {
    && (forall a :: 0 <= a < |s.feedback| ==>
          s.feedback[a] in s.handled && s.feedback[a] < |s.results| && s.results[s.feedback[a]].scanId.Some?)
    && (forall a, b :: 0 <= a < b < |s.feedback| ==> s.feedback[a] != s.feedback[b])
  }

  lemma CommitFeedbackBacked(c: Config, s: State, f: Effect, crash: bool)
    requires FeedbackBacked(s) && Legal(c, s, f, crash)
    ensures FeedbackBacked(Commit(c, s, f))
  {
  }

  lemma {:induction false} RunFeedbackBacked(c: Config, es: seq<Event>)
    ensures FeedbackBacked(Run(c, EMPTY, es))
  {
    if es != [] {
      var before, e := Run(c, EMPTY, es[..|es| - 1]), es[|es| - 1];
      RunFeedbackBacked(c, es[..|es| - 1]);
      EffectsLegal(c, before, e);
      CommitFeedbackBacked(c, before, Effects(c, before, e), IsCrash(e));
    }
  }

  /** In a run with harmless crashes only, the feedback workflow of a request is started at most once. */
  lemma FeedbackStartsOnce(c: Config, es: seq<Event>, s: State)
    requires HarmlessRun(c, es) && s == Run(c, EMPTY, es)
    ensures FeedbackBacked(s)
    ensures forall a, b :: 0 <= a < b < |s.feedback| ==>
      s.results[s.feedback[a]].token != s.results[s.feedback[b]].token
  {
    RunFeedbackBacked(c, es);
    RunOnce(c, es);
    forall a, b | 0 <= a < b < |s.feedback|
      ensures s.results[s.feedback[a]].token != s.results[s.feedback[b]].token
    {
      var i, j := s.feedback[a], s.feedback[b];
      assert i < j || j < i;
    }
  }

  // ---- exactly one result, when agents fail only where the code expects them to

  /** A single-stage agent whose exceptions come after the workflow object exists and before the publish. */
  ghost predicate Plain(env: AgentEnv)
  {
    && env.runner == SingleStage && env.enters && env.binds
    && env.publish == Accepted && env.failurePublish == Accepted
    && !env.tailRaises && !env.exitRaises
  }

  /** Crash-free, every publish confirmed, every agent plain. */
  ghost predicate Reliable(e: Event)
  {
    && !IsCrash(e)
    && (e.AgentRuns? ==> Plain(e.env))
    && (e.TimeoutRuns? ==> e.publish == Accepted)
  }

  /** An exception after a published result. */
  predicate RaisesAnyway(env: AgentEnv)
  {
    env.exitRaises || (env.runner == SingleStage && env.tailRaises && env.capability == Capable)
  }

  /** An exception that keeps the body from publishing, or comes with a publish that failed. */
  predicate RaisesInstead(k: Keys, q: Request, env: AgentEnv)
  {
    || env.exitRaises
    || (env.runner == SingleStage
        && (|| env.capability == CapabilityRaises
            || (env.capability == Capable && (!env.work.Scanned? || env.tailRaises))
            || (Attempts(k, q, env) && env.publish == Raised)))
  }

  /** Exactly when one delivery of a validly signed request to an agent publishes exactly one result. */
  lemma OneResultExactly(k: Keys, t: nat, q: Request, env: AgentEnv)
    requires k.verify(q.signature, q.details)
    ensures |AgentResults(k, t, q, env)| == 1 <==>
      env.enters && env.binds &&
      (if Attempts(k, q, env) && env.publish == Accepted
       then !(env.failurePublish == Accepted && RaisesAnyway(env))
       else env.failurePublish == Accepted && RaisesInstead(k, q, env))
  {
  }

  /** The two-stage runner's context swallows what its body raises: the request is acked and no result is sent. */
  lemma TwoStageSwallows(k: Keys, t: nat, q: Request, env: AgentEnv)
    requires env.runner == TwoStage && env.enters && !env.exitRaises && !Publishes(k, q, env)
    ensures AgentResults(k, t, q, env) == [] && AgentDisposition(k, q, env) == Acked
  {
  }

  lemma PlainDelivers(k: Keys, t: nat, q: Request, env: AgentEnv)
    requires k.verify(q.signature, q.details) && Plain(env)
    ensures |AgentResults(k, t, q, env)| == 1 && AgentDisposition(k, q, env) != Unsettled
  {
  }

  ghost predicate Carried(s: State, t: nat)
  {
    exists id :: id in s.msgs && s.msgs[id].token == t && Carrying(s.msgs[id])
  }

  ghost predicate HasResult(s: State, t: nat)
  {
    exists i :: 0 <= i < |s.results| && s.results[i].token == t
  }

  /** A token is on its way with no result yet, or has exactly one result. */
  ghost predicate ExactlyOne(s: State)
  {
    && (forall t :: t in s.started ==> Carried(s, t) || HasResult(s, t))
    && (forall i, j :: 0 <= i < j < |s.results| ==> s.results[i].token != s.results[j].token)
  }

  /** What a reliable step does beyond being legal. */
  ghost predicate Delivering(s: State, f: Effect)
  {
    match f
    case Emit(id, rs, after) => |rs| == 1
    case Discard(id) => id in s.msgs && !Carrying(s.msgs[id])
    case _ => true
  }

  lemma EffectsDelivering(c: Config, s: State, e: Event)
    requires Reliable(e) && forall id :: id in s.msgs ==>
      c.keys.verify(s.msgs[id].request.signature, s.msgs[id].request.details)
    ensures Delivering(s, Effects(c, s, e))
  {
    if e.AgentRuns? && e.id in s.msgs {
      PlainDelivers(c.keys, s.msgs[e.id].token, s.msgs[e.id].request, e.env);
    }
  }

  lemma ResultsDistinct(c: Config, s: State, f: Effect)
    requires WellFormed(s) && Once(s) && ExactlyOne(s) && Legal(c, s, f, false) && Delivering(s, f)
    ensures var rs := Commit(c, s, f).results; forall i, j :: 0 <= i < j < |rs| ==> rs[i].token != rs[j].token
  {
    if f.Emit? {
      assert About(f.results[0], s.msgs[f.id].token, s.msgs[f.id].request);
    }
  }

  lemma ResultStays(c: Config, s: State, f: Effect, t: nat)
    requires Legal(c, s, f, false) && HasResult(s, t)
    ensures HasResult(Commit(c, s, f), t)
  {
    var i :| 0 <= i < |s.results| && s.results[i].token == t;
    assert Commit(c, s, f).results[i].token == t;
  }

  lemma CommitExactlyOne(c: Config, s: State, f: Effect)
    requires WellFormed(s) && Once(s) && ExactlyOne(s) && Legal(c, s, f, false) && Delivering(s, f)
    ensures ExactlyOne(Commit(c, s, f))
  {
    ResultsDistinct(c, s, f);
    forall t | t in Commit(c, s, f).started
      ensures Carried(Commit(c, s, f), t) || HasResult(Commit(c, s, f), t)
    {
      if t !in s.started {
        assert Commit(c, s, f).msgs[s.nextId].token == t && Carrying(Commit(c, s, f).msgs[s.nextId]);
      } else if HasResult(s, t) {
        ResultStays(c, s, f, t);
      } else {
        StillCarried(c, s, f, t);
      }
    }
  }

  lemma StillCarried(c: Config, s: State, f: Effect, t: nat)
    requires WellFormed(s) && Carried(s, t) && Legal(c, s, f, false) && Delivering(s, f)
    ensures Carried(Commit(c, s, f), t) || HasResult(Commit(c, s, f), t)
  {
    var s' := Commit(c, s, f);
    var id :| id in s.msgs && s.msgs[id].token == t && Carrying(s.msgs[id]);
    if f.Emit? && f.id == id {
      assert s'.results[|s.results|].token == t;
    } else if f.Resubmit? && f.id == id {
      assert s'.msgs[s.nextId].token == t && Carrying(s'.msgs[s.nextId]);
    } else {
      assert id in s'.msgs && s'.msgs[id].token == t && Carrying(s'.msgs[id]);
    }
  }

  /**
   With plain agents and confirmed publishes, every request is either still on its way with no result, or has
   exactly one result; the rejected copies that reach the timeout queue add none.
   */
  lemma {:induction false} EveryRequestOneResult(c: Config, es: seq<Event>)
    requires Genuine(c.keys) && forall i :: 0 <= i < |es| ==> Reliable(es[i])
    ensures ExactlyOne(Run(c, EMPTY, es)) && Once(Run(c, EMPTY, es))
  {
    CrashFreeHarmless(c, es);
    RunOnce(c, es);
    if es != [] {
      var before, e := Run(c, EMPTY, es[..|es| - 1]), es[|es| - 1];
      EveryRequestOneResult(c, es[..|es| - 1]);
      RunWellFormed(c, es[..|es| - 1]);
      NoSignatureFails(c, es[..|es| - 1]);
      EffectsLegal(c, before, e);
      EffectsDelivering(c, before, e);
      CommitExactlyOne(c, before, Effects(c, before, e));
    }
  }
}
