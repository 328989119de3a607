/** Delays and the number of polls over every run of the polling protocol. */
module PollingTiming {
  import opened Numbers
  import opened Backoff
  import opened Polling
  import opened PollingTokens

  /** The least time between two polls of a token. */
  function Gap(c: Config, o: Origin): nat
  {
    Min(o.interval, c.cap)
  }

  /** Delay by the backoff law, and enough time passed for the requeues made so far. */
  ghost predicate Timely(c: Config, s: State, m: Message)
    requires m.token in s.started
  {
    var o := s.started[m.token];
    && m.delay == Delay(o.interval, c.multiplier, c.cap, m.hops)
    && o.body.dropBy == DropBy(o.at, o.budget)
    && match m.place
       case Waiting(since) => o.at + m.hops * Gap(c, o) <= since
       case _ => o.at + (m.hops + 1) * Gap(c, o) <= s.now
  }

  /** Tokens from `base` on were started during the run. */
  ghost predicate AllTimely(c: Config, s: State, base: nat)
  {
    && base <= s.nextToken
    && forall id :: id in s.msgs && s.msgs[id].token >= base ==>
      s.msgs[id].token in s.started && Timely(c, s, s.msgs[id])
  }

  /** Beyond legality: only a message that waited its delay becomes ready, others stay ready or in hand. */
  ghost predicate Paced(s: State, f: Effect)
  {
    match f
    case Create(o) => o.at == s.now && o.body.dropBy == DropBy(o.at, o.budget)
    case Move(id, place, _) =>
      && id in s.msgs && !place.Waiting?
      && (s.msgs[id].place.Waiting? ==> s.msgs[id].place.since + s.msgs[id].delay <= s.now)
    case _ => true
  }

  lemma EffectsPaced(c: Config, s: State, e: Event)
    ensures Paced(s, Effects(c, s, e))
  {
  }

  lemma MovedTimely(c: Config, s: State, m: Message, place: Place, polled: bool)
    requires c.multiplier >= 1 && m.token in s.started && Timely(c, s, m) && !place.Waiting?
    requires m.place.Waiting? ==> m.place.since + m.delay <= s.now
    ensures Timely(c, s, Moved(m, place, polled))
  {
    var o := s.started[m.token];
    AtLeast(o.interval, c.multiplier, c.cap, m.hops);
    assert (m.hops + 1) * Gap(c, o) == m.hops * Gap(c, o) + Gap(c, o);
  }

  lemma ReplacementTimely(c: Config, s: State, m: Message)
    requires m.token in s.started && Timely(c, s, m) && !m.place.Waiting?
    ensures Timely(c, s, Replacement(c, s.now, m))
  {
  }

  /** Timeliness depends only on the token's origin and on time not running backwards. */
  lemma TimelyLater(c: Config, s: State, s': State, m: Message)
    requires m.token in s.started && m.token in s'.started && s.started[m.token] == s'.started[m.token]
    requires Timely(c, s, m) && s.now <= s'.now
    ensures Timely(c, s', m)
  {
  }

  lemma InPlaceTimely(c: Config, s: State, f: Effect, crash: bool, base: nat, id: nat)
    requires f.Move? || f.Send?
    requires c.multiplier >= 1 && WellFormed(s) && AllTimely(c, s, base) && Legal(c, s, f, crash) && Paced(s, f)
    requires id in Commit(c, s, f).msgs && Commit(c, s, f).msgs[id].token >= base
    ensures Commit(c, s, f).msgs[id].token in Commit(c, s, f).started
    ensures Timely(c, Commit(c, s, f), Commit(c, s, f).msgs[id])
  {
    if id == f.id {
      MovedTimely(c, s, s.msgs[id], f.place, f.Move? && f.polled);
    } else {
      TimelyLater(c, s, Commit(c, s, f), s.msgs[id]);
    }
  }

  lemma ReplaceTimely(c: Config, s: State, f: Effect, crash: bool, base: nat, id: nat)
    requires f.Replace?
    requires c.multiplier >= 1 && WellFormed(s) && AllTimely(c, s, base) && Legal(c, s, f, crash) && Paced(s, f)
    requires id in Commit(c, s, f).msgs && Commit(c, s, f).msgs[id].token >= base
    ensures Commit(c, s, f).msgs[id].token in Commit(c, s, f).started
    ensures Timely(c, Commit(c, s, f), Commit(c, s, f).msgs[id])
  {
    if id == s.nextId {
      ReplacementTimely(c, s, s.msgs[f.id]);
    } else if id == f.id {
      MovedTimely(c, s, s.msgs[id], InHand(Republished), false);
    } else {
      TimelyLater(c, s, Commit(c, s, f), s.msgs[id]);
    }
  }

  lemma OtherTimely(c: Config, s: State, f: Effect, crash: bool, base: nat, id: nat)
    requires !f.Move? && !f.Send? && !f.Replace?
    requires c.multiplier >= 1 && WellFormed(s) && AllTimely(c, s, base) && Legal(c, s, f, crash) && Paced(s, f)
    requires id in Commit(c, s, f).msgs && Commit(c, s, f).msgs[id].token >= base
    ensures Commit(c, s, f).msgs[id].token in Commit(c, s, f).started
    ensures Timely(c, Commit(c, s, f), Commit(c, s, f).msgs[id])
  {
    if id in s.msgs && !(f.Create? && id == s.nextId) {
      TimelyLater(c, s, Commit(c, s, f), s.msgs[id]);
    }
  }

  lemma CommitTimely(c: Config, s: State, f: Effect, crash: bool, base: nat)
    requires c.multiplier >= 1 && WellFormed(s) && AllTimely(c, s, base) && Legal(c, s, f, crash) && Paced(s, f)
    ensures AllTimely(c, Commit(c, s, f), base)
  {
    forall id | id in Commit(c, s, f).msgs && Commit(c, s, f).msgs[id].token >= base
      ensures Commit(c, s, f).msgs[id].token in Commit(c, s, f).started
      ensures Timely(c, Commit(c, s, f), Commit(c, s, f).msgs[id])
    {
      match f
      case Move(_, _, _) => InPlaceTimely(c, s, f, crash, base, id);
      case Send(_, _, _) => InPlaceTimely(c, s, f, crash, base, id);
      case Replace(_) => ReplaceTimely(c, s, f, crash, base, id);
      case _ => OtherTimely(c, s, f, crash, base, id);
    }
  }

  /**
   Every message of every token started in the run carries the delay of the backoff law for its number of
   requeues, and that many minimum gaps have passed since the start.
   */
  lemma {:induction false} DelaysFollowLaw(c: Config, s: State, es: seq<Event>)
    requires Initial(s) && c.multiplier >= 1
    ensures WellFormed(Run(c, s, es)) && AllTimely(c, Run(c, s, es), s.nextToken)
  {
    NeverLost(c, s, es);
    if es != [] {
      var before, e := Run(c, s, es[..|es| - 1]), es[|es| - 1];
      DelaysFollowLaw(c, s, es[..|es| - 1]);
      NeverLost(c, s, es[..|es| - 1]);
      EffectsLegal(c, before, e);
      EffectsPaced(c, before, e);
      CommitTimely(c, before, Effects(c, before, e), e.Crash?, s.nextToken);
    }
  }

  /** The closed form, for every requeued message of every run. */
  lemma RequeueDelay(c: Config, s: State, es: seq<Event>, id: nat)
    requires Initial(s) && c.multiplier >= 1
    requires id in Run(c, s, es).msgs && Run(c, s, es).msgs[id].token >= s.nextToken && Run(c, s, es).msgs[id].hops >= 1
    ensures Run(c, s, es).msgs[id].token in Run(c, s, es).started
    ensures var m := Run(c, s, es).msgs[id];
      m.delay == Min(Run(c, s, es).started[m.token].interval * Pow(c.multiplier, m.hops), c.cap)
  {
    DelaysFollowLaw(c, s, es);
    var m := Run(c, s, es).msgs[id];
    ClosedForm(Run(c, s, es).started[m.token].interval, c.multiplier, c.cap, m.hops);
  }

  // ---- the number of polls

  predicate PastCheck(place: Place)
  {
    place.InHand? && place.progress != Received && place.progress != Expiring
  }

  /** One poll per requeue, plus the current one; and all of them within the budget. */
  ghost predicate Counted(c: Config, s: State, m: Message)
    requires m.token in s.started
  {
    var o := s.started[m.token];
    && m.place != InHand(Refusing)
    && m.polls == m.hops + (if PastCheck(m.place) then 1 else 0)
    && (o.budget > 0 && m.polls > 0 ==> m.polls * Gap(c, o) <= o.budget - 1)
  }

  ghost predicate AllCounted(c: Config, s: State, base: nat)
  {
    forall id :: id in s.msgs && s.msgs[id].token >= base ==> s.msgs[id].token in s.started && Counted(c, s, s.msgs[id])
  }

  /** In a run without crashes and refusals a handler only moves forward. */
  ghost predicate Forward(s: State, f: Effect)
  {
    match f
    case Move(id, place, polled) =>
      && id in s.msgs
      && (s.msgs[id].place != InHand(Refusing) ==>
            if polled then s.msgs[id].place == InHand(Received) && PastCheck(place) && s.now < s.msgs[id].body.dropBy
            else PastCheck(place) <==> PastCheck(s.msgs[id].place))
      && place != InHand(Refusing)
    case _ => true
  }

  lemma EffectsForward(c: Config, s: State, e: Event)
    requires !e.Crash? && !(e.Republish? && e.outcome == Refused)
    ensures Forward(s, Effects(c, s, e))
  {
  }

  /** A poll that passes its expiry check has waited one more gap and is still within the budget. */
  lemma PollCounted(c: Config, s: State, m: Message, place: Place)
    requires m.token in s.started && m.body == s.started[m.token].body
    requires Timely(c, s, m) && Counted(c, s, m) && m.place == InHand(Received) && s.now < m.body.dropBy
    requires PastCheck(place) && place != InHand(Refusing)
    ensures Counted(c, s, Moved(m, place, true))
  {
  }

  lemma MovedCounted(c: Config, s: State, m: Message, place: Place)
    requires m.token in s.started && Counted(c, s, m)
    requires place != InHand(Refusing) && (PastCheck(place) <==> PastCheck(m.place))
    ensures Counted(c, s, Moved(m, place, false))
  {
  }

  lemma ReplacementCounted(c: Config, s: State, m: Message)
    requires m.token in s.started && Counted(c, s, m) && PastCheck(m.place)
    ensures Counted(c, s, Replacement(c, s.now, m))
  {
  }

  /** The count depends only on the token's origin. */
  lemma CountedLater(c: Config, s: State, s': State, m: Message)
    requires m.token in s.started && m.token in s'.started && s.started[m.token] == s'.started[m.token]
    requires Counted(c, s, m)
    ensures Counted(c, s', m)
  {
  }

  // One effect at a time: the messages of the state after it.

  lemma MoveKeepsCount(c: Config, s: State, f: Effect, base: nat, id: nat)
    requires f.Move?
    requires WellFormed(s) && AllTimely(c, s, base) && AllCounted(c, s, base) && Legal(c, s, f, false) && Forward(s, f)
    requires id in Commit(c, s, f).msgs && Commit(c, s, f).msgs[id].token >= base
    ensures Commit(c, s, f).msgs[id].token in Commit(c, s, f).started
    ensures Counted(c, Commit(c, s, f), Commit(c, s, f).msgs[id])
  {
    if id != f.id {
      CountedLater(c, s, Commit(c, s, f), s.msgs[id]);
    } else if f.polled {
      PollCounted(c, s, s.msgs[id], f.place);
    } else {
      MovedCounted(c, s, s.msgs[id], f.place);
    }
  }

  lemma SendKeepsCount(c: Config, s: State, f: Effect, base: nat, id: nat)
    requires f.Send?
    requires WellFormed(s) && AllTimely(c, s, base) && AllCounted(c, s, base) && Legal(c, s, f, false) && Forward(s, f)
    requires id in Commit(c, s, f).msgs && Commit(c, s, f).msgs[id].token >= base
    ensures Commit(c, s, f).msgs[id].token in Commit(c, s, f).started
    ensures Counted(c, Commit(c, s, f), Commit(c, s, f).msgs[id])
  {
    if id != f.id {
      CountedLater(c, s, Commit(c, s, f), s.msgs[id]);
    } else {
      MovedCounted(c, s, s.msgs[id], f.place);
    }
  }

  lemma ReplaceKeepsCount(c: Config, s: State, f: Effect, base: nat, id: nat)
    requires f.Replace?
    requires WellFormed(s) && AllTimely(c, s, base) && AllCounted(c, s, base) && Legal(c, s, f, false) && Forward(s, f)
    requires id in Commit(c, s, f).msgs && Commit(c, s, f).msgs[id].token >= base
    ensures Commit(c, s, f).msgs[id].token in Commit(c, s, f).started
    ensures Counted(c, Commit(c, s, f), Commit(c, s, f).msgs[id])
  {
    if id == s.nextId {
      ReplacementCounted(c, s, s.msgs[f.id]);
    } else if id == f.id {
      MovedCounted(c, s, s.msgs[id], InHand(Republished));
    } else {
      CountedLater(c, s, Commit(c, s, f), s.msgs[id]);
    }
  }

  lemma CreateKeepsCount(c: Config, s: State, f: Effect, base: nat, id: nat)
    requires f.Create?
    requires WellFormed(s) && AllTimely(c, s, base) && AllCounted(c, s, base) && Legal(c, s, f, false) && Forward(s, f)
    requires id in Commit(c, s, f).msgs && Commit(c, s, f).msgs[id].token >= base
    ensures Commit(c, s, f).msgs[id].token in Commit(c, s, f).started
    ensures Counted(c, Commit(c, s, f), Commit(c, s, f).msgs[id])
  {
    if id != s.nextId {
      CountedLater(c, s, Commit(c, s, f), s.msgs[id]);
    }
  }

  lemma OtherKeepsCount(c: Config, s: State, f: Effect, base: nat, id: nat)
    requires !f.Move? && !f.Send? && !f.Replace? && !f.Create?
    requires WellFormed(s) && AllTimely(c, s, base) && AllCounted(c, s, base) && Legal(c, s, f, false) && Forward(s, f)
    requires id in Commit(c, s, f).msgs && Commit(c, s, f).msgs[id].token >= base
    ensures Commit(c, s, f).msgs[id].token in Commit(c, s, f).started
    ensures Counted(c, Commit(c, s, f), Commit(c, s, f).msgs[id])
  {
    assert id in s.msgs && Commit(c, s, f).msgs[id] == s.msgs[id];
    CountedLater(c, s, Commit(c, s, f), s.msgs[id]);
  }

  lemma CommitCounted(c: Config, s: State, f: Effect, base: nat)
    requires WellFormed(s) && AllTimely(c, s, base) && AllCounted(c, s, base) && Legal(c, s, f, false) && Forward(s, f)
    ensures AllCounted(c, Commit(c, s, f), base)
  {
    forall id | id in Commit(c, s, f).msgs && Commit(c, s, f).msgs[id].token >= base
      ensures Commit(c, s, f).msgs[id].token in Commit(c, s, f).started
      ensures Counted(c, Commit(c, s, f), Commit(c, s, f).msgs[id])
    {
      match f
      case Move(_, _, _) => MoveKeepsCount(c, s, f, base, id);
      case Send(_, _, _) => SendKeepsCount(c, s, f, base, id);
      case Replace(_) => ReplaceKeepsCount(c, s, f, base, id);
      case Create(_) => CreateKeepsCount(c, s, f, base, id);
      case _ => OtherKeepsCount(c, s, f, base, id);
    }
  }

  lemma {:induction false} PollsCounted(c: Config, s: State, es: seq<Event>)
    requires Initial(s) && c.multiplier >= 1 && CrashFree(es) && NoRefusals(es)
    ensures AllCounted(c, Run(c, s, es), s.nextToken)
  {
    if es != [] {
      var before, e := Run(c, s, es[..|es| - 1]), es[|es| - 1];
      PollsCounted(c, s, es[..|es| - 1]);
      DelaysFollowLaw(c, s, es[..|es| - 1]);
      NeverLost(c, s, es[..|es| - 1]);
      EffectsLegal(c, before, e);
      EffectsForward(c, before, e);
      CommitCounted(c, before, Effects(c, before, e), s.nextToken);
    }
  }

  ghost predicate WithinBudget(c: Config, o: Origin, polls: nat)
  {
    o.budget > 0 && Gap(c, o) > 0 ==> polls <= (o.budget - 1) / Gap(c, o)
  }

  lemma CountedWithinBudget(c: Config, s: State, m: Message)
    requires m.token in s.started && Counted(c, s, m)
    ensures WithinBudget(c, s.started[m.token], m.polls)
  {
    var o := s.started[m.token];
    if o.budget > 0 && Gap(c, o) > 0 && m.polls > 0 {
      QuotientBound(m.polls, Gap(c, o), o.budget - 1);
    }
  }

  lemma QuotientBound(n: nat, gap: nat, total: nat)
    requires gap > 0 && n * gap <= total
    ensures n <= total / gap
  {
    var quotient := total / gap;
    assert total < (quotient + 1) * gap;
    if n > quotient {
      MulMono(gap, quotient + 1, n);
    }
  }

  /**
   In a run without crashes and refused publishes, a token with a time budget is polled unexpired at most
   (budget - 1) / gap times.
   */
  lemma PollBound(c: Config, s: State, es: seq<Event>, id: nat)
    requires Initial(s) && c.multiplier >= 1 && CrashFree(es) && NoRefusals(es)
    requires id in Run(c, s, es).msgs && Run(c, s, es).msgs[id].token >= s.nextToken
    ensures Run(c, s, es).msgs[id].token in Run(c, s, es).started
    ensures WithinBudget(c, Run(c, s, es).started[Run(c, s, es).msgs[id].token], Run(c, s, es).msgs[id].polls)
  {
    PollsCounted(c, s, es);
    var s' := Run(c, s, es);
    assert Counted(c, s', s'.msgs[id]);
    CountedWithinBudget(c, s', s'.msgs[id]);
  }

  lemma ExpiredPollConcludes(c: Config, s: State, id: nat)
    requires HeldAt(s, id, Received) && s.now >= s.msgs[id].body.dropBy
    ensures Apply(c, Apply(c, s, CheckExpiry(id)), Settle(id)) ==
      s.(msgs := s.msgs - {id}, concluded := s.concluded[s.msgs[id].token := Expired])
  {
    var checked := Apply(c, s, CheckExpiry(id));
    assert checked == s.(msgs := s.msgs[id := Moved(s.msgs[id], InHand(Expiring), false)]);
    assert checked.msgs - {id} == s.msgs - {id};
  }

  /** The next poll of this message cannot come before its token's budget is used up. */
  ghost predicate Overdue(c: Config, o: Origin, m: Message)
  {
    o.budget > 0 && (m.hops + 1) * Gap(c, o) >= o.budget
  }

  lemma OverdueIsExpired(c: Config, s: State, m: Message)
    requires m.token in s.started && m.body == s.started[m.token].body
    requires Timely(c, s, m) && !m.place.Waiting? && Overdue(c, s.started[m.token], m)
    ensures s.now >= m.body.dropBy
  {
  }

  /** In any run, a token overdue by its number of requeues is found expired by its next poll, whose ack ends it. */
  lemma DiesOnNextPoll(c: Config, s: State, es: seq<Event>, s': State, id: nat)
    requires Initial(s) && c.multiplier >= 1 && s' == Run(c, s, es)
    requires HeldAt(s', id, Received) && s'.msgs[id].token >= s.nextToken && s'.msgs[id].token in s'.started
    requires Overdue(c, s'.started[s'.msgs[id].token], s'.msgs[id])
    ensures Apply(c, Apply(c, s', CheckExpiry(id)), Settle(id)) ==
      s'.(msgs := s'.msgs - {id}, concluded := s'.concluded[s'.msgs[id].token := Expired])
  {
    DelaysFollowLaw(c, s, es);
    OverdueIsExpired(c, s', s'.msgs[id]);
    ExpiredPollConcludes(c, s', id);
  }
}
