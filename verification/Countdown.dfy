/** The resubmission countdown: how often a request that no agent takes is enqueued, over every run. */
module Countdown {
  import opened Runs
  import opened Numbers
  import opened Options
  import opened Delegated
  import opened DelegatedRuns

  /** Crash-free, with the timeout handler's publishes confirmed. Agents may do as they like. */
  ghost predicate Confirmed(e: Event)
  {
    !IsCrash(e) && (e.TimeoutRuns? ==> e.publish == Accepted)
  }

  ghost predicate Kept(s: State, f: Effect)
  {
    f.Discard? ==> f.id in s.msgs && !Carrying(s.msgs[f.id])
  }

  lemma EffectsKept(c: Config, s: State, e: Event)
    requires Confirmed(e) && forall id :: id in s.msgs ==>
      c.keys.verify(s.msgs[id].request.signature, s.msgs[id].request.details)
    ensures Kept(s, Effects(c, s, e))
  {
  }

  /** Every resubmission carries a smaller header than the message it replaces. */
  lemma HeaderDecreases(c: Config, s: State, e: Event)
    requires Effects(c, s, e).Resubmit?
    ensures var m := s.msgs[Effects(c, s, e).id]; 0 < Resubmitted(s.now, m).retries == m.retries - 1
  {
  }

  /** Only a message an agent had can be rejected or abandoned. */
  ghost predicate AgentPlaces(s: State)
  {
    forall id :: id in s.msgs && s.msgs[id].token !in s.taken ==>
      s.msgs[id].place == Queued || s.msgs[id].place == Dead(ByExpiry)
  }

  /** Enqueues so far plus the header make the configured number of attempts. */
  ghost predicate Balanced(c: Config, s: State, m: Message)
  {
    && 0 <= m.retries <= Max(c.retries, 0)
    && Count(s.enqueued, m.token) + Max(m.retries, 1) == Max(c.retries, 1) + 1
    && Count(s.expired, m.token) == Count(s.enqueued, m.token) - (if m.place == Queued then 1 else 0)
  }

  ghost predicate Balance(c: Config, s: State)
  {
    forall id :: id in s.msgs && s.msgs[id].token !in s.taken ==> Balanced(c, s, s.msgs[id])
  }

  /** Tokens are new: nothing has been counted for those not yet started. */
  ghost predicate CountsStarted(s: State)
  {
    && (forall t :: t in s.enqueued ==> t in s.started)
    && (forall t :: t in s.expired ==> t in s.started)
  }

  ghost predicate FailedResult(s: State, t: nat, i: int)
  {
    0 <= i < |s.results| && s.results[i].token == t && s.results[i].state == Failure && s.results[i].scanId == None
  }

  /** A token no agent took and nobody carries has used all its attempts and has its failure result. */
  ghost predicate Spent(c: Config, s: State, t: nat)
  {
    && Count(s.enqueued, t) == Max(c.retries, 1)
    && Count(s.expired, t) == Max(c.retries, 1)
    && exists i :: FailedResult(s, t, i)
  }

  ghost predicate AllSpent(c: Config, s: State)
  {
    && (forall t :: t in s.started && t !in s.taken && !Carried(s, t) ==> Spent(c, s, t))
    && (forall i, j :: 0 <= i < j < |s.results| && s.results[i].token == s.results[j].token ==>
          s.results[i].token in s.taken)
  }

  ghost predicate Inv(c: Config, s: State)
  {
    WellFormed(s) && Once(s) && AgentPlaces(s) && Balance(c, s) && CountsStarted(s) && AllSpent(c, s)
  }

  lemma CommitAgentPlaces(c: Config, s: State, f: Effect)
    requires AgentPlaces(s) && Legal(c, s, f, false)
    ensures AgentPlaces(Commit(c, s, f))
  {
  }

  lemma CommitCountsStarted(c: Config, s: State, f: Effect)
    requires WellFormed(s) && CountsStarted(s) && Legal(c, s, f, false)
    ensures CountsStarted(Commit(c, s, f))
  {
  }

  // One effect at a time: a message of the state after it that no agent took.

  lemma CreateBalanced(c: Config, s: State, f: Effect, id: nat)
    requires f.Create?
    requires WellFormed(s) && Once(s) && AgentPlaces(s) && CountsStarted(s) && Balance(c, s) && Legal(c, s, f, false)
    requires id in Commit(c, s, f).msgs && Commit(c, s, f).msgs[id].token !in Commit(c, s, f).taken
    ensures Balanced(c, Commit(c, s, f), Commit(c, s, f).msgs[id])
  {
    if id in s.msgs && id != s.nextId {
      assert Balanced(c, s, s.msgs[id]);
    }
  }

  lemma DieBalanced(c: Config, s: State, f: Effect, id: nat)
    requires f.Die?
    requires WellFormed(s) && Once(s) && AgentPlaces(s) && CountsStarted(s) && Balance(c, s) && Legal(c, s, f, false)
    requires id in Commit(c, s, f).msgs && Commit(c, s, f).msgs[id].token !in Commit(c, s, f).taken
    ensures Balanced(c, Commit(c, s, f), Commit(c, s, f).msgs[id])
  {
    assert Balanced(c, s, s.msgs[id]);
    assert f.id != id ==> s.msgs[f.id].token != s.msgs[id].token;
  }

  lemma ResubmitBalanced(c: Config, s: State, f: Effect, id: nat)
    requires f.Resubmit?
    requires WellFormed(s) && Once(s) && AgentPlaces(s) && CountsStarted(s) && Balance(c, s) && Legal(c, s, f, false)
    requires id in Commit(c, s, f).msgs && Commit(c, s, f).msgs[id].token !in Commit(c, s, f).taken
    ensures Balanced(c, Commit(c, s, f), Commit(c, s, f).msgs[id])
  {
    if id == s.nextId {
      assert Balanced(c, s, s.msgs[f.id]);
    } else {
      assert Balanced(c, s, s.msgs[id]);
      assert s.msgs[f.id].token != s.msgs[id].token;
    }
  }

  lemma OtherBalanced(c: Config, s: State, f: Effect, id: nat)
    requires !f.Create? && !f.Die? && !f.Resubmit?
    requires WellFormed(s) && Once(s) && AgentPlaces(s) && CountsStarted(s) && Balance(c, s) && Legal(c, s, f, false)
    requires id in Commit(c, s, f).msgs && Commit(c, s, f).msgs[id].token !in Commit(c, s, f).taken
    ensures Balanced(c, Commit(c, s, f), Commit(c, s, f).msgs[id])
  {
    assert id in s.msgs && Balanced(c, s, s.msgs[id]);
  }

  lemma CommitBalance(c: Config, s: State, f: Effect)
    requires WellFormed(s) && Once(s) && AgentPlaces(s) && CountsStarted(s) && Balance(c, s) && Legal(c, s, f, false)
    ensures Balance(c, Commit(c, s, f))
  {
    forall id | id in Commit(c, s, f).msgs && Commit(c, s, f).msgs[id].token !in Commit(c, s, f).taken
      ensures Balanced(c, Commit(c, s, f), Commit(c, s, f).msgs[id])
    {
      match f
      case Create(_) => CreateBalanced(c, s, f, id);
      case Die(_, _) => DieBalanced(c, s, f, id);
      case Resubmit(_, _) => ResubmitBalanced(c, s, f, id);
      case _ => OtherBalanced(c, s, f, id);
    }
  }

  /** A message that is not consumed by its own failure result is still there, or its resubmission is. */
  lemma UnconsumedCarried(c: Config, s: State, f: Effect, id: nat)
    requires WellFormed(s) && Legal(c, s, f, false) && Kept(s, f)
    requires id in s.msgs && Carrying(s.msgs[id]) && s.msgs[id].token !in Commit(c, s, f).taken
    requires s.msgs[id].place == Queued || s.msgs[id].place == Dead(ByExpiry)
    requires !(f.Emit? && f.id == id)
    ensures Carried(Commit(c, s, f), s.msgs[id].token)
  {
    var s' := Commit(c, s, f);
    var heir := if f.Resubmit? && f.id == id then s.nextId else id;
    assert heir in s'.msgs && s'.msgs[heir].token == s.msgs[id].token && Carrying(s'.msgs[heir]);
  }

  /** The step that leaves a token uncarried is the timeout handler's failure result. */
  lemma BecomesSpent(c: Config, s: State, f: Effect, t: nat)
    requires Inv(c, s) && Legal(c, s, f, false) && Kept(s, f)
    requires t in s.started && Carried(s, t) && t !in Commit(c, s, f).taken && !Carried(Commit(c, s, f), t)
    ensures Spent(c, Commit(c, s, f), t)
  {
    var s' := Commit(c, s, f);
    var id :| id in s.msgs && s.msgs[id].token == t && Carrying(s.msgs[id]);
    assert Balanced(c, s, s.msgs[id]);
    if !(f.Emit? && f.id == id) {
      UnconsumedCarried(c, s, f, id);
      assert false;
    } else {
      assert FailedResult(s', t, |s.results|);
    }
  }

  lemma StaysSpent(c: Config, s: State, f: Effect, t: nat)
    requires Inv(c, s) && Legal(c, s, f, false) && t in s.started && t !in s.taken && !Carried(s, t) && Spent(c, s, t)
    ensures Spent(c, Commit(c, s, f), t)
  {
    var s' := Commit(c, s, f);
    var i :| FailedResult(s, t, i);
    assert FailedResult(s', t, i);
    if f.Die? || f.Resubmit? {
      assert Carrying(s.msgs[f.id]);
    }
  }

  lemma CommitAllSpent(c: Config, s: State, f: Effect)
    requires Inv(c, s) && Legal(c, s, f, false) && Kept(s, f)
    ensures AllSpent(c, Commit(c, s, f))
  {
    var s' := Commit(c, s, f);
    forall t | t in s'.started && t !in s'.taken && !Carried(s', t)
      ensures Spent(c, s', t)
    {
      if t !in s.started {
        assert s'.msgs[s.nextId].token == t && Carrying(s'.msgs[s.nextId]);
      } else if Carried(s, t) {
        BecomesSpent(c, s, f, t);
      } else {
        StaysSpent(c, s, f, t);
      }
    }
    if f.Emit? {
      EmitKeepsDistinct(c, s, f);
    }
  }

  lemma EmitKeepsDistinct(c: Config, s: State, f: Effect)
    requires f.Emit? && Inv(c, s) && Legal(c, s, f, false)
    ensures var s' := Commit(c, s, f);
      forall i, j :: 0 <= i < j < |s'.results| && s'.results[i].token == s'.results[j].token ==>
        s'.results[i].token in s'.taken
  {
    var s' := Commit(c, s, f);
    assert forall i :: |s.results| <= i < |s'.results| ==> s'.results[i] == f.results[i - |s.results|];
    assert forall i :: |s.results| <= i < |s'.results| ==> s'.results[i].token == s.msgs[f.id].token;
  }

  lemma {:induction false} RunInv(c: Config, es: seq<Event>)
    requires Genuine(c.keys) && forall i :: 0 <= i < |es| ==> Confirmed(es[i])
    ensures Inv(c, Run(c, EMPTY, es))
  {
    if es != [] {
      var before, e := Run(c, EMPTY, es[..|es| - 1]), es[|es| - 1];
      RunInv(c, es[..|es| - 1]);
      NoSignatureFails(c, es[..|es| - 1]);
      EffectsLegal(c, before, e);
      EffectsKept(c, before, e);
      var f := Effects(c, before, e);
      CommitWellFormed(c, before, f, false);
      HarmlessFresh(c, before, e);
      CommitOnce(c, before, f, false);
      CommitAgentPlaces(c, before, f);
      CommitBalance(c, before, f);
      CommitCountsStarted(c, before, f);
      CommitAllSpent(c, before, f);
    }
  }

  /**
   With R configured retries, a request that no agent ever takes is enqueued at most max(R, 1) times while it
   is on its way, and once it is not, it was enqueued and expired exactly max(R, 1) times and has exactly one
   result: a failure without a scan id.
   */
  lemma UntakenRequest(c: Config, es: seq<Event>, s: State, t: nat)
    requires Genuine(c.keys) && (forall i :: 0 <= i < |es| ==> Confirmed(es[i])) && s == Run(c, EMPTY, es)
    requires t in s.started && t !in s.taken
    ensures Carried(s, t) ==> !HasResult(s, t) && 1 <= Count(s.enqueued, t) <= Max(c.retries, 1)
    ensures !Carried(s, t) ==> Spent(c, s, t)
    ensures forall i, j :: 0 <= i < j < |s.results| && s.results[i].token == t ==> s.results[j].token != t
  {
    RunInv(c, es);
    if Carried(s, t) {
      var id :| id in s.msgs && s.msgs[id].token == t && Carrying(s.msgs[id]);
      assert Balanced(c, s, s.msgs[id]);
    }
  }

  // ---- left alone, the countdown ends

  /** The request's time passes, it expires, and the timeout handler runs. */
  function Cycle(c: Config, s: State, id: nat): seq<Event>
    requires id in s.msgs
  {
    var wait := s.msgs[id].since + c.timeout - s.now;
    [Tick(if wait > 0 then wait else 0), Expire(id), TimeoutRuns(id, Accepted)]
  }

  ghost predicate Waiting(c: Config, s: State, id: nat)
  {
    && id in s.msgs && s.msgs[id].place == Queued && id < s.nextId
    && c.keys.verify(s.msgs[id].request.signature, s.msgs[id].request.details)
  }

  function Dying(c: Config, s: State, id: nat): State
    requires id in s.msgs
  {
    Apply(c, Apply(c, s, Cycle(c, s, id)[0]), Expire(id))
  }

  lemma CycleExpires(c: Config, s: State, id: nat)
    requires Waiting(c, s, id)
    ensures var d := Dying(c, s, id);
      && id in d.msgs && d.msgs[id] == s.msgs[id].(place := Dead(ByExpiry))
      && d.results == s.results && d.enqueued == s.enqueued && d.nextId == s.nextId
  {
  }

  lemma RunCycle(c: Config, s: State, id: nat)
    requires Waiting(c, s, id)
    ensures Run(c, s, Cycle(c, s, id)) == Apply(c, Dying(c, s, id), TimeoutRuns(id, Accepted))
  {
    var es := Cycle(c, s, id);
    assert es[..2] == [es[0], es[1]] && es[..2][..1] == [es[0]];
    assert Run(c, s, [es[0]]) == Apply(c, s, es[0]);
  }

  ghost predicate Idle(e: Event)
  {
    e.Tick? || e.Expire? || (e.TimeoutRuns? && e.publish == Accepted)
  }

  /** From any state, a queued request that no agent takes can be run down to its failure result. */
  lemma {:induction false} CountdownEnds(c: Config, s: State, id: nat) returns (es: seq<Event>)
    requires Waiting(c, s, id)
    ensures forall i :: 0 <= i < |es| ==> Idle(es[i])
    ensures Run(c, s, es).results == s.results + [MakeResult(s.msgs[id].token, s.msgs[id].request, Failure, None, None)]
    ensures Count(Run(c, s, es).enqueued, s.msgs[id].token)
      == Count(s.enqueued, s.msgs[id].token) + Max(s.msgs[id].retries, 1) - 1
    decreases Max(s.msgs[id].retries, 1)
  {
    es := Cycle(c, s, id);
    var s' := Run(c, s, es);
    RunCycle(c, s, id);
    CycleExpires(c, s, id);
    if s.msgs[id].retries - 1 > 0 {
      var again := s.nextId;
      HeaderDecreases(c, Dying(c, s, id), TimeoutRuns(id, Accepted));
      assert Waiting(c, s', again) && 0 < s'.msgs[again].retries < s.msgs[id].retries;
      var more := CountdownEnds(c, s', again);
      RunConcat(c, s, es, more);
      es := es + more;
    }
  }

  lemma RunSnoc(c: Config, s: State, es: seq<Event>, e: Event)
    ensures Run(c, s, es + [e]) == Apply(c, Run(c, s, es), e)
  {
    assert (es + [e])[..|es + [e]| - 1] == es;
  }

  lemma RunConcat(c: Config, s: State, es: seq<Event>, more: seq<Event>)
    ensures Run(c, s, es + more) == Run(c, Run(c, s, es), more)
  {
    var run := (t: State, gs: seq<Event>) => Run(c, t, gs);
    var step := (t: State, e: Event) => Apply(c, t, e);
    forall t: State, gs: seq<Event>, e: Event ensures run(t, gs + [e]) == step(run(t, gs), e) {
      RunSnoc(c, t, gs, e);
    }
    Concat(run, step, s, es, more);
  }
}
