/** The countdown in time: no request is given up before each of its attempts had its full timeout. */
module CountdownTime {
  import opened Numbers
  import opened Delegated
  import opened DelegatedRuns
  import opened Countdown

  /** When each token was started, with the time of the state it first appears in. */
  ghost function Times(c: Config, es: seq<Event>): map<nat, int>
  {
    if es == [] then map[]
    else Extended(Times(c, es[..|es| - 1]), Run(c, EMPTY, es))
  }

  ghost function Extended(at: map<nat, int>, s: State): map<nat, int>
  {
    map t | t in s.started :: if t in at then at[t] else s.now
  }

  /** Each attempt so far, but for the one waiting, had its timeout. */
  ghost predicate Patient(c: Config, s: State, m: Message, at: int)
  {
    && at + (Count(s.enqueued, m.token) - 1) * c.timeout <= m.since <= s.now
    && (m.place == Dead(ByExpiry) ==> at + Count(s.enqueued, m.token) * c.timeout <= s.now)
  }

  ghost predicate AllPatient(c: Config, s: State, at: map<nat, int>)
  {
    && at.Keys == s.started.Keys
    && (forall id :: id in s.msgs && s.msgs[id].token in at && s.msgs[id].token !in s.taken ==>
          Patient(c, s, s.msgs[id], at[s.msgs[id].token]))
    && (forall t :: t in at && t !in s.taken && !Carried(s, t) ==> at[t] + Max(c.retries, 1) * c.timeout <= s.now)
  }

  /** A message dies of expiry only when its timeout has passed. */
  lemma EffectsTimed(c: Config, s: State, e: Event)
    ensures var f := Effects(c, s, e); f.Die? ==> f.id in s.msgs && s.msgs[f.id].since + c.timeout <= s.now
  {
  }

  lemma OneMore(n: int, timeout: nat)
    ensures n * timeout == (n - 1) * timeout + timeout
  {
  }

  lemma MessagePatient(c: Config, s: State, f: Effect, at: map<nat, int>, id: nat)
    requires Inv(c, s) && AllPatient(c, s, at) && Legal(c, s, f, false) && Kept(s, f)
    requires f.Die? ==> s.msgs[f.id].since + c.timeout <= s.now
    requires id in Commit(c, s, f).msgs && Commit(c, s, f).msgs[id].token !in Commit(c, s, f).taken
    ensures Commit(c, s, f).msgs[id].token in Commit(c, s, f).started
    ensures Patient(c, Commit(c, s, f), Commit(c, s, f).msgs[id],
                    Extended(at, Commit(c, s, f))[Commit(c, s, f).msgs[id].token])
  {
    match f
    case Create(_) => CreatePatient(c, s, f, at, id);
    case Die(_, _) => DiePatient(c, s, f, at, id);
    case Resubmit(_, _) => ResubmitPatient(c, s, f, at, id);
    case _ => OtherPatient(c, s, f, at, id);
  }

  lemma CreatePatient(c: Config, s: State, f: Effect, at: map<nat, int>, id: nat)
    requires f.Create? && Inv(c, s) && AllPatient(c, s, at) && Legal(c, s, f, false)
    requires id in Commit(c, s, f).msgs && Commit(c, s, f).msgs[id].token !in Commit(c, s, f).taken
    ensures Commit(c, s, f).msgs[id].token in Commit(c, s, f).started
    ensures Patient(c, Commit(c, s, f), Commit(c, s, f).msgs[id],
                    Extended(at, Commit(c, s, f))[Commit(c, s, f).msgs[id].token])
  {
    if id != s.nextId {
      assert Patient(c, s, s.msgs[id], at[s.msgs[id].token]);
    }
  }

  lemma DiePatient(c: Config, s: State, f: Effect, at: map<nat, int>, id: nat)
    requires f.Die? && Inv(c, s) && AllPatient(c, s, at) && Legal(c, s, f, false)
    requires s.msgs[f.id].since + c.timeout <= s.now
    requires id in Commit(c, s, f).msgs && Commit(c, s, f).msgs[id].token !in Commit(c, s, f).taken
    ensures Commit(c, s, f).msgs[id].token in Commit(c, s, f).started
    ensures Patient(c, Commit(c, s, f), Commit(c, s, f).msgs[id],
                    Extended(at, Commit(c, s, f))[Commit(c, s, f).msgs[id].token])
  {
    assert Patient(c, s, s.msgs[id], at[s.msgs[id].token]);
    OneMore(Count(s.enqueued, s.msgs[id].token), c.timeout);
  }

  lemma ResubmitPatient(c: Config, s: State, f: Effect, at: map<nat, int>, id: nat)
    requires f.Resubmit? && Inv(c, s) && AllPatient(c, s, at) && Legal(c, s, f, false)
    requires id in Commit(c, s, f).msgs && Commit(c, s, f).msgs[id].token !in Commit(c, s, f).taken
    ensures Commit(c, s, f).msgs[id].token in Commit(c, s, f).started
    ensures Patient(c, Commit(c, s, f), Commit(c, s, f).msgs[id],
                    Extended(at, Commit(c, s, f))[Commit(c, s, f).msgs[id].token])
  {
    if id == s.nextId {
      assert Patient(c, s, s.msgs[f.id], at[s.msgs[f.id].token]);
    } else {
      assert Patient(c, s, s.msgs[id], at[s.msgs[id].token]);
      assert s.msgs[id].token != s.msgs[f.id].token;
    }
  }

  lemma OtherPatient(c: Config, s: State, f: Effect, at: map<nat, int>, id: nat)
    requires !f.Create? && !f.Die? && !f.Resubmit? && Inv(c, s) && AllPatient(c, s, at) && Legal(c, s, f, false)
    requires id in Commit(c, s, f).msgs && Commit(c, s, f).msgs[id].token !in Commit(c, s, f).taken
    ensures Commit(c, s, f).msgs[id].token in Commit(c, s, f).started
    ensures Patient(c, Commit(c, s, f), Commit(c, s, f).msgs[id],
                    Extended(at, Commit(c, s, f))[Commit(c, s, f).msgs[id].token])
  {
    assert Patient(c, s, s.msgs[id], at[s.msgs[id].token]);
  }

  lemma NewIsCarried(c: Config, s: State, f: Effect, t: nat)
    requires WellFormed(s) && Legal(c, s, f, false) && t in Commit(c, s, f).started
    ensures t in s.started || Carried(Commit(c, s, f), t)
  {
    if t !in s.started {
      assert Commit(c, s, f).msgs[s.nextId].token == t && Carrying(Commit(c, s, f).msgs[s.nextId]);
    }
  }

  /** A token that stops being carried, or no longer is, has had the time of all its attempts. */
  lemma TokenPatient(c: Config, s: State, f: Effect, at: map<nat, int>, t: nat)
    requires Inv(c, s) && AllPatient(c, s, at) && Legal(c, s, f, false) && Kept(s, f)
    requires t in Commit(c, s, f).started && t !in Commit(c, s, f).taken && !Carried(Commit(c, s, f), t)
    ensures Extended(at, Commit(c, s, f))[t] + Max(c.retries, 1) * c.timeout <= Commit(c, s, f).now
  {
    NewIsCarried(c, s, f, t);
    if Carried(s, t) {
      var id :| id in s.msgs && s.msgs[id].token == t && Carrying(s.msgs[id]);
      assert Balanced(c, s, s.msgs[id]) && Patient(c, s, s.msgs[id], at[t]);
      if !(f.Emit? && f.id == id) {
        UnconsumedCarried(c, s, f, id);
        assert false;
      }
    }
  }

  lemma CommitPatient(c: Config, s: State, f: Effect, at: map<nat, int>)
    requires Inv(c, s) && AllPatient(c, s, at) && Legal(c, s, f, false) && Kept(s, f)
    requires f.Die? ==> s.msgs[f.id].since + c.timeout <= s.now
    ensures AllPatient(c, Commit(c, s, f), Extended(at, Commit(c, s, f)))
  {
    var s' := Commit(c, s, f);
    forall id | id in s'.msgs && s'.msgs[id].token in s'.started && s'.msgs[id].token !in s'.taken
      ensures Patient(c, s', s'.msgs[id], Extended(at, s')[s'.msgs[id].token])
    {
      MessagePatient(c, s, f, at, id);
    }
    forall t | t in s'.started && t !in s'.taken && !Carried(s', t)
      ensures Extended(at, s')[t] + Max(c.retries, 1) * c.timeout <= s'.now
    {
      TokenPatient(c, s, f, at, t);
    }
  }

  /**
   In any confirmed run a request that no agent takes and that is no longer on its way was given max(R, 1) times
   the full timeout since it was started.
   */
  lemma {:induction false} FullPatience(c: Config, es: seq<Event>)
    requires Genuine(c.keys) && forall i :: 0 <= i < |es| ==> Confirmed(es[i])
    ensures AllPatient(c, Run(c, EMPTY, es), Times(c, es))
  {
    if es != [] {
      var before, e := Run(c, EMPTY, es[..|es| - 1]), es[|es| - 1];
      FullPatience(c, es[..|es| - 1]);
      RunInv(c, es[..|es| - 1]);
      NoSignatureFails(c, es[..|es| - 1]);
      EffectsLegal(c, before, e);
      EffectsKept(c, before, e);
      EffectsTimed(c, before, e);
      CommitPatient(c, before, Effects(c, before, e), Times(c, es[..|es| - 1]));
      RunLast(c, EMPTY, es);
    }
  }
}
