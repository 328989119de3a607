/** What every run of the polling protocol keeps: one await message per scan, sound feedback, a draining legacy copy. */
module PollingTokens {
  import opened Names
  import opened Polling
  import T = Topology

  // ---- structure

  ghost predicate WellFormed(s: State)
  {
    && (forall id :: id in s.msgs ==> id < s.nextId && s.msgs[id].token in s.started)
    && (forall id :: id in s.msgs ==> s.msgs[id].body == s.started[s.msgs[id].token].body)
    && (forall t :: t in s.started ==> t < s.nextToken)
    && (forall t :: t in s.concluded ==> t in s.started)
  }

  /** A message still carries its token unless its replacement has already been accepted. */
  ghost predicate Active(m: Message)
  {
    m.place != InHand(Republished)
  }

  ghost predicate Holds(s: State, t: nat, id: nat)
  {
    id in s.msgs && s.msgs[id].token == t && Active(s.msgs[id])
  }

  ghost predicate Carried(s: State, t: nat)
  {
    exists id :: Holds(s, t, id)
  }

  ghost predicate AtLeastOne(s: State)
  {
    forall t :: t in s.started && t !in s.concluded ==> Carried(s, t)
  }

  ghost predicate AtMostOne(s: State)
  {
    forall i, j :: i in s.msgs && j in s.msgs && Active(s.msgs[i]) && Active(s.msgs[j])
      && s.msgs[i].token == s.msgs[j].token
      ==> i == j
  }

  ghost predicate NoneAfter(s: State)
  {
    forall id :: id in s.msgs && Active(s.msgs[id]) ==> s.msgs[id].token !in s.concluded
  }

  /** What a run starts from: one message per token already started, waiting or ready, in either epoch. */
  ghost predicate Initial(s: State)
  {
    && WellFormed(s) && AtLeastOne(s) && AtMostOne(s) && KeysKept(s)
    && s.concluded == map[]
    && s.notes == []
    && forall id :: id in s.msgs ==> !s.msgs[id].place.InHand?
  }

  /** What the handler knows at a point of its progress about a message body. */
  ghost predicate Known(s: State, b: Body, p: Progress)
  {
    match p
    case Checked(at) => at < b.dropBy
    case ChannelOpen(at) => at < b.dropBy
    case Concluding(at, success, _) => at < b.dropBy && b.scan in s.finished && s.finished[b.scan] == success
    case _ => true
  }

  ghost predicate ProgressTrue(s: State)
  {
    forall id :: id in s.msgs && s.msgs[id].place.InHand? ==> Known(s, s.msgs[id].body, s.msgs[id].place.progress)
  }

  /**
   Neither replaced nor in the hands of the feedback services: what a handler step other than the last one
   works on.
   */
  ghost predicate Open(m: Message)
  {
    m.place != InHand(Republished) && m.place != InHand(Notified)
    && (m.place.InHand? ==> !m.place.progress.Concluding?)
  }

  /** Every effect is on a message the broker has, in the state the effect needs. */
  ghost predicate Legal(c: Config, s: State, f: Effect, crash: bool)
  {
    match f
    case Record(scan, _) => scan !in s.finished
    case Create(o) => '.' !in o.body.moniker
    case Move(id, place, _) =>
      && id in s.msgs && place != InHand(Republished) && (crash || Open(s.msgs[id]))
      && (place.InHand? ==> Known(s, s.msgs[id].body, place.progress))
    case Send(id, notes, place) =>
      && id in s.msgs && s.msgs[id].place.InHand? && s.msgs[id].place.progress.Concluding?
      && var p := s.msgs[id].place.progress;
         && p.called < |c.services| && place == InHand(AfterCalls(c, p.at, p.success, p.called + 1))
         && (notes == [] || (notes == [NoteBy(c.services[p.called], s.msgs[id].token, s.msgs[id].body, p.at, p.success)]
                             && Guard(c.services[p.called]) == s.msgs[id].body.workflow))
    case Replace(id) => HeldAt(s, id, Requeueing)
    case Forget(id) => HeldAt(s, id, Republished)
    case Conclude(id, _) => id in s.msgs && Active(s.msgs[id])
    case _ => true
  }

  lemma EffectsLegal(c: Config, s: State, e: Event)
    requires ProgressTrue(s)
    ensures Legal(c, s, Effects(c, s, e), e.Crash?)
  {
  }

  // Effects by what they do to messages: change one in place, add one, or neither.

  lemma InPlaceWellFormed(c: Config, s: State, f: Effect, crash: bool)
    requires f.Move? || f.Send?
    requires WellFormed(s) && Legal(c, s, f, crash)
    ensures WellFormed(Commit(c, s, f))
  {
  }

  lemma AddWellFormed(c: Config, s: State, f: Effect, crash: bool)
    requires f.Create? || f.Replace?
    requires WellFormed(s) && Legal(c, s, f, crash)
    ensures WellFormed(Commit(c, s, f))
  {
  }

  lemma CommitWellFormed(c: Config, s: State, f: Effect, crash: bool)
    requires WellFormed(s) && Legal(c, s, f, crash)
    ensures WellFormed(Commit(c, s, f))
  {
    if f.Move? || f.Send? {
      InPlaceWellFormed(c, s, f, crash);
    } else if f.Create? || f.Replace? {
      AddWellFormed(c, s, f, crash);
    }
  }

  lemma CommitProgressTrue(c: Config, s: State, f: Effect, crash: bool)
    requires ProgressTrue(s) && Legal(c, s, f, crash)
    ensures ProgressTrue(Commit(c, s, f))
  {
  }

  // ---- token conservation

  lemma HolderStays(c: Config, s: State, f: Effect, crash: bool, t: nat, id: nat)
    requires WellFormed(s) && Legal(c, s, f, crash) && Holds(s, t, id) && t !in Commit(c, s, f).concluded
    ensures Carried(Commit(c, s, f), t)
  {
    if f.Replace? && f.id == id {
      assert Holds(Commit(c, s, f), t, s.nextId);
    } else {
      assert Holds(Commit(c, s, f), t, id);
    }
  }

  lemma CommitAtLeastOne(c: Config, s: State, f: Effect, crash: bool)
    requires WellFormed(s) && AtLeastOne(s) && Legal(c, s, f, crash)
    ensures AtLeastOne(Commit(c, s, f))
  {
    forall t | t in Commit(c, s, f).started && t !in Commit(c, s, f).concluded
      ensures Carried(Commit(c, s, f), t)
    {
      if t !in s.started {
        assert Holds(Commit(c, s, f), t, s.nextId);
      } else {
        var id :| Holds(s, t, id);
        HolderStays(c, s, f, crash, t, id);
      }
    }
  }

  /** One message at most per token, and none once it has concluded. */
  ghost predicate Conserved(s: State)
  {
    AtMostOne(s) && NoneAfter(s)
  }

  lemma InPlaceConserved(c: Config, s: State, f: Effect, crash: bool)
    requires f.Move? || f.Send?
    requires WellFormed(s) && Conserved(s) && Legal(c, s, f, crash) && Active(s.msgs[f.id])
    ensures Conserved(Commit(c, s, f))
  {
  }

  lemma AddConserved(c: Config, s: State, f: Effect, crash: bool)
    requires f.Create? || f.Replace?
    requires WellFormed(s) && Conserved(s) && Legal(c, s, f, crash)
    ensures Conserved(Commit(c, s, f))
  {
  }

  lemma CommitConserved(c: Config, s: State, f: Effect, crash: bool)
    requires WellFormed(s) && Conserved(s) && Legal(c, s, f, crash) && (f.Move? ==> Active(s.msgs[f.id]))
    ensures Conserved(Commit(c, s, f))
  {
    if f.Move? || f.Send? {
      InPlaceConserved(c, s, f, crash);
    } else if f.Create? || f.Replace? {
      AddConserved(c, s, f, crash);
    }
  }

  /** Whatever crashes and refusals happen, a started scan has an await message in the broker until it concludes. */
  lemma {:induction false} NeverLost(c: Config, s: State, es: seq<Event>)
    requires Initial(s)
    ensures WellFormed(Run(c, s, es)) && ProgressTrue(Run(c, s, es))
    ensures forall t :: t in Run(c, s, es).started && t !in Run(c, s, es).concluded ==> Carried(Run(c, s, es), t)
  {
    if es != [] {
      var before, e := Run(c, s, es[..|es| - 1]), es[|es| - 1];
      NeverLost(c, s, es[..|es| - 1]);
      EffectsLegal(c, before, e);
      CommitWellFormed(c, before, Effects(c, before, e), e.Crash?);
      CommitProgressTrue(c, before, Effects(c, before, e), e.Crash?);
      CommitAtLeastOne(c, before, Effects(c, before, e), e.Crash?);
    }
  }

  // ---- which crashes do harm

  /** Not the crash of a delivery whose replacement has been accepted and which is not yet acked. */
  ghost predicate Harmless(s: State, e: Event)
  {
    e.Crash? ==> !HeldAt(s, e.id, Republished)
  }

  lemma HarmlessMoves(c: Config, s: State, e: Event)
    requires ProgressTrue(s) && Harmless(s, e)
    ensures var f := Effects(c, s, e); f.Move? ==> f.id in s.msgs && Active(s.msgs[f.id])
  {
    EffectsLegal(c, s, e);
  }

  lemma StepConserved(c: Config, s: State, e: Event)
    requires WellFormed(s) && ProgressTrue(s) && Conserved(s) && Harmless(s, e)
    ensures Conserved(Apply(c, s, e))
  {
    EffectsLegal(c, s, e);
    HarmlessMoves(c, s, e);
    CommitConserved(c, s, Effects(c, s, e), e.Crash?);
  }

  /**
   In every run without such a crash a started scan has exactly one await message (waiting, ready, or in hand
   and not yet replaced) until it concludes, and none after. Crashes anywhere else change nothing of that.
   */
  lemma {:induction false} TokenConservation(c: Config, s: State, es: seq<Event>)
    requires Initial(s) && Each(c, s, es, Harmless)
    ensures Conserved(Run(c, s, es))
    ensures forall t :: t in Run(c, s, es).started ==> (t !in Run(c, s, es).concluded <==> Carried(Run(c, s, es), t))
  {
    if es != [] {
      NeverLost(c, s, es[..|es| - 1]);
      TokenConservation(c, s, es[..|es| - 1]);
      StepConserved(c, Run(c, s, es[..|es| - 1]), es[|es| - 1]);
      RunLast(c, s, es);
    }
    NeverLost(c, s, es);
    CarriedIsOpen(Run(c, s, es));
  }

  lemma CarriedIsOpen(s: State)
    requires NoneAfter(s)
    ensures forall t :: Carried(s, t) ==> t !in s.concluded
  {
    forall t | Carried(s, t) ensures t !in s.concluded {
      var id :| Holds(s, t, id);
    }
  }

  lemma {:induction false} CrashFreeHarmless(c: Config, s: State, es: seq<Event>)
    requires CrashFree(es)
    ensures Each(c, s, es, Harmless) && Each(c, s, es, Unheard)
  {
    if es != [] {
      CrashFreeHarmless(c, s, es[..|es| - 1]);
    }
  }

  /** A crash of a replaced delivery leaves two messages for its token, or one after it has concluded. */
  lemma HarmfulCrash(c: Config, s: State, id: nat)
    requires WellFormed(s) && AtLeastOne(s) && HeldAt(s, id, Republished)
    ensures !Conserved(Apply(c, s, Crash(id)))
  {
    var s', t := Apply(c, s, Crash(id)), s.msgs[id].token;
    assert s' == Commit(c, s, Move(id, Ready, false));
    assert Holds(s', t, id);
    if t !in s.concluded {
      var other :| Holds(s, t, other);
      assert Holds(s', t, other) && other != id;
    }
  }

  /** One step keeps one message per scan exactly when it is harmless. */
  lemma StepExactly(c: Config, s: State, e: Event)
    requires WellFormed(s) && ProgressTrue(s) && AtLeastOne(s) && Conserved(s)
    ensures Conserved(Apply(c, s, e)) <==> Harmless(s, e)
  {
    if Harmless(s, e) {
      StepConserved(c, s, e);
    } else {
      HarmfulCrash(c, s, e.id);
    }
  }

  /** So one message per scan is kept at every point of a run exactly when no crash hits a replaced delivery. */
  lemma {:induction false} ConservedExactly(c: Config, s: State, es: seq<Event>)
    requires Initial(s)
    ensures Always(c, s, es, Conserved) <==> Each(c, s, es, Harmless)
  {
    if es != [] {
      ConservedExactly(c, s, es[..|es| - 1]);
      NeverLost(c, s, es[..|es| - 1]);
      RunLast(c, s, es);
      if Always(c, s, es[..|es| - 1], Conserved) {
        StepExactly(c, Run(c, s, es[..|es| - 1]), es[|es| - 1]);
      }
    }
  }

  // ---- keys, and the queues they lead to

  /** Keys are those made for the bodies; only pull requests were ever put into the legacy queues. */
  ghost predicate KeysKept(s: State)
  {
    && (forall t :: t in s.started ==> '.' !in s.started[t].body.moniker)
    && (forall id :: id in s.msgs ==> s.msgs[id].key == AwaitKey(s.msgs[id].body))
    && (forall id :: id in s.msgs && s.msgs[id].epoch == Legacy ==> s.msgs[id].body.workflow == PR)
  }

  lemma AddKeys(c: Config, s: State, f: Effect, crash: bool)
    requires f.Create? || f.Replace?
    requires KeysKept(s) && Legal(c, s, f, crash)
    ensures KeysKept(Commit(c, s, f))
  {
  }

  lemma CommitKeys(c: Config, s: State, f: Effect, crash: bool)
    requires KeysKept(s) && Legal(c, s, f, crash)
    ensures KeysKept(Commit(c, s, f))
  {
    if f.Create? || f.Replace? {
      AddKeys(c, s, f, crash);
    }
  }

  lemma {:induction false} RunKeys(c: Config, s: State, es: seq<Event>)
    requires Initial(s)
    ensures KeysKept(Run(c, s, es))
  {
    if es != [] {
      var before, e := Run(c, s, es[..|es| - 1]), es[|es| - 1];
      RunKeys(c, s, es[..|es| - 1]);
      NeverLost(c, s, es[..|es| - 1]);
      EffectsLegal(c, before, e);
      CommitKeys(c, before, Effects(c, before, e), e.Crash?);
    }
  }

  /**
   The places this machine gives to messages are the ones the bindings give: in any reachable state, a
   message republished under its key to Scan In reaches exactly the new await queue, one that expires there
   reaches exactly the new polling queue, and one that expires in the legacy await queue exactly the legacy
   polling queue.
   */
  lemma PlacesFollowBindings(c: Config, s: State, es: seq<Event>, id: nat, tags: set<string>, q: T.Queue)
    requires Initial(s) && id in Run(c, s, es).msgs && T.ValidTags(tags)
    ensures T.Reaches(T.Bindings(tags), T.ScanIn, Run(c, s, es).msgs[id].key.Text(), q) <==> q == T.AwaitedScans
    ensures T.Reaches(T.Bindings(tags), T.PollingDelivery, Run(c, s, es).msgs[id].key.Text(), q) <==>
      q == T.PollingScans
    ensures Run(c, s, es).msgs[id].epoch == Legacy ==>
      (T.Reaches(T.Bindings(tags), T.PollingDeliveryLegacy, Run(c, s, es).msgs[id].key.Text(), q) <==>
       q == T.PollingScansLegacy)
  {
    NeverLost(c, s, es);
    RunKeys(c, s, es);
    var b := Run(c, s, es).msgs[id].body;
    T.ScanInReachesExactly(tags, AwaitKind(b.workflow), b.moniker, q);
    T.DeadLetterReachesPolling(tags, AwaitKind(b.workflow), b.moniker, q);
  }

  // ---- legacy drain

  /** The messages of the legacy queues, each with its token. */
  function LegacyCopies(s: State): set<(nat, nat)>
  {
    set id | id in s.msgs && s.msgs[id].epoch == Legacy :: (id, s.msgs[id].token)
  }

  lemma CommitDrains(c: Config, s: State, f: Effect, crash: bool)
    requires WellFormed(s) && Legal(c, s, f, crash)
    ensures LegacyCopies(Commit(c, s, f)) <= LegacyCopies(s)
  {
  }

  /** No run ever puts a message into the legacy queues, crashes and refusals included. */
  lemma {:induction false} LegacyDrains(c: Config, s: State, es: seq<Event>)
    requires Initial(s)
    ensures LegacyCopies(Run(c, s, es)) <= LegacyCopies(s)
  {
    if es != [] {
      var before, e := Run(c, s, es[..|es| - 1]), es[|es| - 1];
      LegacyDrains(c, s, es[..|es| - 1]);
      NeverLost(c, s, es[..|es| - 1]);
      EffectsLegal(c, before, e);
      CommitDrains(c, before, Effects(c, before, e), e.Crash?);
    }
  }

  ghost predicate NewOnly(s: State, t: nat)
  {
    forall id :: Holds(s, t, id) ==> s.msgs[id].epoch == Current
  }

  /** The one legacy message of a token is replaced or gone. */
  ghost predicate Leaving(s: State, t: nat, id: nat)
  {
    && (id in s.msgs ==> s.msgs[id].place == InHand(Republished))
    && (forall k :: k in s.msgs && s.msgs[k].token == t && s.msgs[k].epoch == Legacy ==> k == id)
  }

  lemma LeavingIsNew(s: State, t: nat, id: nat)
    requires Leaving(s, t, id)
    ensures NewOnly(s, t)
  {
  }

  /** Only a crash moves a replaced message. */
  lemma ReplacedUntouched(c: Config, s: State, e: Event, id: nat)
    requires id in s.msgs ==> s.msgs[id].place == InHand(Republished)
    requires e != Crash(id)
    ensures var f := Effects(c, s, e); f.Move? || f.Send? || f.Replace? ==> f.id != id
  {
  }

  lemma CommitLeaving(c: Config, s: State, f: Effect, crash: bool, t: nat, id: nat)
    requires WellFormed(s) && id < s.nextId && Leaving(s, t, id) && Legal(c, s, f, crash)
    requires f.Move? || f.Send? || f.Replace? ==> f.id != id
    ensures Leaving(Commit(c, s, f), t, id) && id < Commit(c, s, f).nextId
  {
    var s' := Commit(c, s, f);
    CommitDrains(c, s, f, crash);
    forall k | k in s'.msgs && s'.msgs[k].token == t && s'.msgs[k].epoch == Legacy
      ensures k == id
    {
      assert (k, t) in LegacyCopies(s');
    }
  }

  lemma {:induction false} StaysLeaving(c: Config, s: State, es: seq<Event>, more: seq<Event>, t: nat, id: nat)
    requires Initial(s) && id < Run(c, s, es).nextId && Leaving(Run(c, s, es), t, id)
    requires forall i :: 0 <= i < |more| ==> more[i] != Crash(id)
    ensures Leaving(Run(c, s, es + more), t, id) && id < Run(c, s, es + more).nextId
  {
    if more == [] {
      assert es + more == es;
    } else {
      var prior, e := more[..|more| - 1], more[|more| - 1];
      assert es + more == es + prior + [e];
      StaysLeaving(c, s, es, prior, t, id);
      NeverLost(c, s, es + prior);
      EffectsLegal(c, Run(c, s, es + prior), e);
      ReplacedUntouched(c, Run(c, s, es + prior), e, id);
      CommitLeaving(c, Run(c, s, es + prior), Effects(c, Run(c, s, es + prior), e), e.Crash?, t, id);
      RunSnoc(c, s, es + prior, e);
    }
  }

  /** In any run, crashes included, a token has at most one message in the legacy queues. */
  lemma OneLegacyCopy(c: Config, s: State, es: seq<Event>, i: nat, j: nat)
    requires Initial(s)
    requires i in Run(c, s, es).msgs && j in Run(c, s, es).msgs
    requires Run(c, s, es).msgs[i].epoch == Run(c, s, es).msgs[j].epoch == Legacy
    requires Run(c, s, es).msgs[i].token == Run(c, s, es).msgs[j].token
    ensures i == j
  {
    var r := Run(c, s, es);
    LegacyDrains(c, s, es);
    assert (i, r.msgs[i].token) in LegacyCopies(r) && (j, r.msgs[j].token) in LegacyCopies(r);
    assert i in s.msgs && j in s.msgs && s.msgs[i].token == s.msgs[j].token;
  }

  lemma RepublishLeaves(c: Config, s: State, id: nat)
    requires WellFormed(s) && HeldAt(s, id, Requeueing) && s.msgs[id].epoch == Legacy
    requires forall k :: k in s.msgs && s.msgs[k].token == s.msgs[id].token && s.msgs[k].epoch == Legacy ==> k == id
    ensures Leaving(Apply(c, s, Republish(id, Accepted)), s.msgs[id].token, id)
    ensures id < Apply(c, s, Republish(id, Accepted)).nextId
  {
  }

  /**
   In any run an accepted requeue of a legacy token moves it out of the legacy queues for good, as long as
   this very delivery does not crash before its ack.
   */
  lemma RequeueLeavesLegacy(c: Config, s: State, es: seq<Event>, id: nat, more: seq<Event>)
    requires Initial(s) && HeldAt(Run(c, s, es), id, Requeueing) && Run(c, s, es).msgs[id].epoch == Legacy
    requires forall i :: 0 <= i < |more| ==> more[i] != Crash(id)
    ensures NewOnly(Run(c, s, es + [Republish(id, Accepted)] + more), Run(c, s, es).msgs[id].token)
  {
    var before, step := Run(c, s, es), Republish(id, Accepted);
    NeverLost(c, s, es);
    forall k | k in before.msgs && before.msgs[k].token == before.msgs[id].token && before.msgs[k].epoch == Legacy
      ensures k == id
    {
      OneLegacyCopy(c, s, es, k, id);
    }
    RepublishLeaves(c, before, id);
    RunSnoc(c, s, es, step);
    StaysLeaving(c, s, es + [step], more, before.msgs[id].token, id);
    LeavingIsNew(Run(c, s, es + [step] + more), before.msgs[id].token, id);
  }

  lemma RepublishedHeld(c: Config, s: State, id: nat)
    requires id < s.nextId && HeldAt(s, id, Requeueing)
    ensures var t := Apply(c, s, Republish(id, Accepted));
      HeldAt(t, id, Republished) && t.msgs[id].token == s.msgs[id].token && t.msgs[id].epoch == s.msgs[id].epoch
  {
  }

  lemma CrashKeeps(c: Config, s: State, id: nat)
    requires HeldAt(s, id, Republished)
    ensures var t := Apply(c, s, Crash(id));
      Holds(t, s.msgs[id].token, id) && t.msgs[id].epoch == s.msgs[id].epoch
  {
  }

  /** That is needed: a crash between the accepted requeue and the ack brings the token back to the legacy queues. */
  lemma CrashReturnsToLegacy(c: Config, s: State, id: nat)
    requires id < s.nextId && HeldAt(s, id, Requeueing) && s.msgs[id].epoch == Legacy
    ensures !NewOnly(Run(c, s, [Republish(id, Accepted), Crash(id)]), s.msgs[id].token)
  {
    RunTwo(c, s, Republish(id, Accepted), Crash(id));
    RepublishedHeld(c, s, id);
    var mid := Apply(c, s, Republish(id, Accepted));
    CrashKeeps(c, mid, id);
    StillLegacy(Apply(c, mid, Crash(id)), s.msgs[id].token, id);
  }

  lemma StillLegacy(s: State, t: nat, id: nat)
    requires Holds(s, t, id) && s.msgs[id].epoch == Legacy
    ensures !NewOnly(s, t)
  {
  }

  // ---- feedback soundness

  /** A listed service is for the workflow of this message and made this note about it. */
  ghost predicate PublishedBy(c: Config, k: int, b: Body, success: bool, n: Note)
  {
    0 <= k < |c.services| && Guard(c.services[k]) == b.workflow
      && n == NoteBy(c.services[k], n.token, b, n.checkedAt, success)
  }

  /**
   A note is the message meant for the token's own workflow, published by a listed service of that workflow,
   about the token's own scan, which had really ended so.
   */
  ghost predicate Faithful(c: Config, s: State, n: Note)
  {
    && n.token in s.started
    && var b := s.started[n.token].body;
       && b.scan in s.finished
       && n.checkedAt < b.dropBy
       && n == NoteFor(n.token, b, n.checkedAt, s.finished[b.scan])
       && exists k :: PublishedBy(c, k, b, s.finished[b.scan], n)
  }

  ghost predicate NotesFaithful(c: Config, s: State)
  {
    forall i :: 0 <= i < |s.notes| ==> Faithful(c, s, s.notes[i])
  }

  /** A note stays faithful: origins and the ends of scans are never changed. */
  lemma FaithfulLater(c: Config, s: State, f: Effect, crash: bool, n: Note)
    requires WellFormed(s) && Legal(c, s, f, crash) && Faithful(c, s, n)
    ensures Faithful(c, Commit(c, s, f), n)
  {
    var s', b := Commit(c, s, f), s.started[n.token].body;
    assert n.token in s'.started && s'.started[n.token] == s.started[n.token];
    assert b.scan in s'.finished && s'.finished[b.scan] == s.finished[b.scan];
  }

  lemma SentFaithful(c: Config, s: State, f: Effect, crash: bool)
    requires f.Send? && f.notes != [] && WellFormed(s) && ProgressTrue(s) && Legal(c, s, f, crash)
    ensures |f.notes| == 1 && Faithful(c, s, f.notes[0])
  {
    var m := s.msgs[f.id];
    var p := m.place.progress;
    assert Known(s, m.body, p);
    assert PublishedBy(c, p.called, m.body, p.success, f.notes[0]);
  }

  lemma CommitNotesFaithful(c: Config, s: State, f: Effect, crash: bool)
    requires WellFormed(s) && ProgressTrue(s) && NotesFaithful(c, s) && Legal(c, s, f, crash)
    ensures NotesFaithful(c, Commit(c, s, f))
  {
    var s' := Commit(c, s, f);
    forall i | 0 <= i < |s'.notes|
      ensures Faithful(c, s', s'.notes[i])
    {
      if i >= |s.notes| {
        SentFaithful(c, s, f, crash);
      }
      FaithfulLater(c, s, f, crash, s'.notes[i]);
    }
  }

  /** No service still to be called would publish about this message. */
  ghost predicate Past(c: Config, m: Message)
  {
    && m.place.InHand?
    && (m.place.progress == Notified
        || (m.place.progress.Concluding?
            && forall j :: m.place.progress.called <= j < |c.services| ==> Guard(c.services[j]) != m.body.workflow))
  }

  /** At most one note per token, and a token that has one is past the service of its workflow. */
  ghost predicate NotesUnique(c: Config, s: State)
  {
    && (forall i, j :: 0 <= i < j < |s.notes| ==> s.notes[i].token != s.notes[j].token)
    && (forall i, id :: 0 <= i < |s.notes| && Holds(s, s.notes[i].token, id) ==> Past(c, s.msgs[id]))
  }

  ghost predicate Noted(s: State, t: nat)
  {
    exists i :: 0 <= i < |s.notes| && s.notes[i].token == t
  }

  /** A call that publishes leaves the message past its service, and the token had no note before. */
  lemma SendUnique(c: Config, s: State, f: Effect, crash: bool)
    requires f.Send? && OneEach(c) && WellFormed(s) && AtMostOne(s) && NotesUnique(c, s) && Legal(c, s, f, crash)
    ensures NotesUnique(c, Commit(c, s, f))
  {
    var s', m := Commit(c, s, f), s.msgs[f.id];
    assert Holds(s, m.token, f.id);
    assert f.notes != [] ==> Past(c, s'.msgs[f.id]);
    forall i, id | 0 <= i < |s'.notes| && Holds(s', s'.notes[i].token, id)
      ensures Past(c, s'.msgs[id])
    {
      assert Holds(s, s'.notes[i].token, id);
      if i < |s.notes| {
        assert Past(c, s.msgs[id]);
      } else {
        assert id == f.id;
      }
    }
  }

  /** What a step may move without touching a delivery whose token has its note. */
  ghost predicate MovesUnnoted(s: State, f: Effect)
  {
    f.Move? ==> f.id in s.msgs && (Open(s.msgs[f.id]) || (Active(s.msgs[f.id]) && !Noted(s, s.msgs[f.id].token)))
  }

  lemma MoveUnique(c: Config, s: State, f: Effect, crash: bool)
    requires f.Move? && NotesUnique(c, s) && Legal(c, s, f, crash) && MovesUnnoted(s, f)
    ensures NotesUnique(c, Commit(c, s, f))
  {
    var s' := Commit(c, s, f);
    forall i, id | 0 <= i < |s'.notes| && Holds(s', s'.notes[i].token, id)
      ensures Past(c, s'.msgs[id])
    {
      assert Holds(s, s.notes[i].token, id);
      assert Noted(s, s.notes[i].token);
    }
  }

  lemma CommitNotesUnique(c: Config, s: State, f: Effect, crash: bool)
    requires OneEach(c) && WellFormed(s) && AtMostOne(s) && NotesFaithful(c, s) && NotesUnique(c, s)
    requires Legal(c, s, f, crash) && MovesUnnoted(s, f)
    ensures NotesUnique(c, Commit(c, s, f))
  {
    if f.Send? {
      SendUnique(c, s, f, crash);
    } else if f.Move? {
      MoveUnique(c, s, f, crash);
    } else {
      OtherUnique(c, s, f, crash);
    }
  }

  lemma OtherUnique(c: Config, s: State, f: Effect, crash: bool)
    requires !f.Send? && !f.Move? && WellFormed(s) && NotesFaithful(c, s) && NotesUnique(c, s) && Legal(c, s, f, crash)
    ensures NotesUnique(c, Commit(c, s, f))
  {
    var s' := Commit(c, s, f);
    if f.Replace? {
      assert Holds(s, s.msgs[f.id].token, f.id);
    }
    forall i, id | 0 <= i < |s'.notes| && Holds(s', s'.notes[i].token, id)
      ensures Past(c, s'.msgs[id])
    {
      assert Faithful(c, s, s.notes[i]);
      if id in s.msgs && Active(s.msgs[id]) {
        assert Holds(s, s.notes[i].token, id);
      }
    }
  }

  /**
   In any run, crashes included, every feedback or error message is the one the service of the token's own
   workflow makes from the token's own scan, project, moniker and details; its token was unexpired when
   checked, and the scan had ended as the message says.
   */
  lemma {:induction false} FeedbackFaithful(c: Config, s: State, es: seq<Event>)
    requires Initial(s)
    ensures NotesFaithful(c, Run(c, s, es))
  {
    if es != [] {
      var before, e := Run(c, s, es[..|es| - 1]), es[|es| - 1];
      FeedbackFaithful(c, s, es[..|es| - 1]);
      NeverLost(c, s, es[..|es| - 1]);
      EffectsLegal(c, before, e);
      CommitNotesFaithful(c, before, Effects(c, before, e), e.Crash?);
    }
  }

  /** Not the crash of a replaced delivery, nor of one whose token already has its note. */
  ghost predicate Unheard(s: State, e: Event)
  {
    e.Crash? && e.id in s.msgs && s.msgs[e.id].place.InHand? ==>
      s.msgs[e.id].place != InHand(Republished) && !Noted(s, s.msgs[e.id].token)
  }

  lemma UnheardMoves(c: Config, s: State, e: Event)
    requires ProgressTrue(s) && Unheard(s, e)
    ensures MovesUnnoted(s, Effects(c, s, e))
  {
    EffectsLegal(c, s, e);
  }

  lemma StepUnique(c: Config, s: State, e: Event)
    requires OneEach(c) && WellFormed(s) && ProgressTrue(s) && AtMostOne(s) && NotesFaithful(c, s) && NotesUnique(c, s)
    requires Unheard(s, e)
    ensures NotesUnique(c, Apply(c, s, e))
  {
    EffectsLegal(c, s, e);
    UnheardMoves(c, s, e);
    CommitNotesUnique(c, s, Effects(c, s, e), e.Crash?);
  }

  /**
   In every run without such a crash at most one feedback or error message is published per token, although
   every service is called for every scan: with one service per workflow only the token's own passes its guard.
   */
  lemma {:induction false} FeedbackAtMostOnce(c: Config, s: State, es: seq<Event>)
    requires Initial(s) && Each(c, s, es, Unheard) && OneEach(c)
    ensures NotesUnique(c, Run(c, s, es))
  {
    if es != [] {
      FeedbackAtMostOnce(c, s, es[..|es| - 1]);
      FeedbackFaithful(c, s, es[..|es| - 1]);
      NeverLost(c, s, es[..|es| - 1]);
      EachImplies(c, s, es[..|es| - 1], Unheard, Harmless);
      TokenConservation(c, s, es[..|es| - 1]);
      StepUnique(c, Run(c, s, es[..|es| - 1]), es[|es| - 1]);
      RunLast(c, s, es);
    }
  }

  /** After the crash of a delivery whose token has its note, the message is back before its services. */
  lemma HeardCrash(c: Config, s: State, id: nat)
    requires id in s.msgs && s.msgs[id].place.InHand? && Noted(s, s.msgs[id].token)
    ensures !NotesUnique(c, Apply(c, s, Crash(id)))
  {
    var s' := Apply(c, s, Crash(id));
    assert s' == Commit(c, s, Move(id, Ready, false));
    var i :| 0 <= i < |s.notes| && s.notes[i].token == s.msgs[id].token;
    assert Holds(s', s'.notes[i].token, id) && !Past(c, s'.msgs[id]);
  }

  /** One message per scan, one note per token, and a noted token past its service. */
  ghost predicate NotedOnce(c: Config, s: State)
  {
    Conserved(s) && NotesUnique(c, s)
  }

  lemma NoteStepExactly(c: Config, s: State, e: Event)
    requires OneEach(c) && WellFormed(s) && ProgressTrue(s) && AtLeastOne(s) && NotesFaithful(c, s) && NotedOnce(c, s)
    ensures NotedOnce(c, Apply(c, s, e)) <==> Unheard(s, e)
  {
    StepExactly(c, s, e);
    if Unheard(s, e) {
      StepUnique(c, s, e);
    } else if Harmless(s, e) {
      HeardCrash(c, s, e.id);
    }
  }

  /** This is kept at every point of a run exactly when no crash hits a replaced delivery or one with its note. */
  lemma {:induction false} NotedOnceExactly(c: Config, s: State, es: seq<Event>)
    requires Initial(s) && OneEach(c)
    ensures Always(c, s, es, (t: State) => NotedOnce(c, t)) <==> Each(c, s, es, Unheard)
  {
    var p := (t: State) => NotedOnce(c, t);
    if es != [] {
      NotedOnceExactly(c, s, es[..|es| - 1]);
      NeverLost(c, s, es[..|es| - 1]);
      FeedbackFaithful(c, s, es[..|es| - 1]);
      RunLast(c, s, es);
      if Always(c, s, es[..|es| - 1], p) {
        assert p(Run(c, s, es[..|es| - 1]));
        NoteStepExactly(c, Run(c, s, es[..|es| - 1]), es[|es| - 1]);
      }
    }
  }

  // ---- such a crash does lead to a second message

  lemma RedeliveredAfterCrash(c: Config, s: State, id: nat)
    requires id in s.msgs && s.msgs[id].place.InHand?
    ensures var s' := Run(c, s, [Crash(id), Deliver(id)]); s' == Commit(c, s, Move(id, InHand(Received), false))
  {
    RunTwo(c, s, Crash(id), Deliver(id));
  }

  lemma CheckedAndOpened(c: Config, s: State, id: nat)
    requires HeldAt(s, id, Received) && s.now < s.msgs[id].body.dropBy
    ensures var s' := Run(c, s, [CheckExpiry(id), OpenChannel(id, true)]);
      s' == Commit(c, s, Move(id, InHand(ChannelOpen(s.now)), true))
  {
    RunTwo(c, s, CheckExpiry(id), OpenChannel(id, true));
  }

  /** Calling every service from the given one on, with accepted publishes. */
  function CallRest(c: Config, id: nat, called: nat): seq<Event>
    requires called <= |c.services|
  {
    seq(|c.services| - called, _ => Notify(id, Accepted))
  }

  lemma CallRestUnfolds(c: Config, s: State, id: nat, called: nat)
    requires called < |c.services|
    ensures Run(c, s, CallRest(c, id, called)) == Run(c, Apply(c, s, Notify(id, Accepted)), CallRest(c, id, called + 1))
  {
    var rest := CallRest(c, id, called + 1);
    RunSnoc(c, s, [], Notify(id, Accepted));
    RunConcat(c, s, [] + [Notify(id, Accepted)], rest);
    assert CallRest(c, id, called) == [] + [Notify(id, Accepted)] + rest;
  }

  lemma CallEffect(c: Config, s: State, id: nat, at: int, success: bool, called: nat)
    requires HeldAt(s, id, Concluding(at, success, called)) && called < |c.services|
    ensures var s' := Apply(c, s, Notify(id, Accepted));
      && HeldAt(s', id, AfterCalls(c, at, success, called + 1)) && s'.msgs[id].body == s.msgs[id].body
      && s'.msgs[id].token == s.msgs[id].token
      && s'.notes == s.notes + CallNotes(c.services[called], s.msgs[id].token, s.msgs[id].body, at, success, Accepted)
  {
  }

  /** If the service of the message's workflow is still to be called, its note is published. */
  lemma {:induction false} RestNotified(c: Config, s: State, id: nat, at: int, success: bool, called: nat, own: nat)
    requires HeldAt(s, id, Concluding(at, success, called)) && called <= own < |c.services|
    requires Guard(c.services[own]) == s.msgs[id].body.workflow
    ensures var s' := Run(c, s, CallRest(c, id, called));
      |s'.notes| > |s.notes| && s'.notes[|s.notes|].token == s.msgs[id].token
    decreases |c.services| - called
  {
    var s1 := Apply(c, s, Notify(id, Accepted));
    CallRestUnfolds(c, s, id, called);
    CallEffect(c, s, id, at, success, called);
    if Guard(c.services[called]) == s.msgs[id].body.workflow {
      NotesGrow(c, s1, CallRest(c, id, called + 1));
    } else {
      assert s1.notes == s.notes;
      RestNotified(c, s1, id, at, success, called + 1, own);
    }
  }

  lemma CommitNotesGrow(c: Config, s: State, f: Effect)
    requires f.Move? || f.Send? || f.Replace? || f.Conclude? ==> f.id in s.msgs
    ensures s.notes <= Commit(c, s, f).notes
  {
  }

  lemma {:induction false} NotesGrow(c: Config, s: State, es: seq<Event>)
    ensures s.notes <= Run(c, s, es).notes
  {
    if es != [] {
      var before := Run(c, s, es[..|es| - 1]);
      NotesGrow(c, s, es[..|es| - 1]);
      CommitNotesGrow(c, before, Effects(c, before, es[|es| - 1]));
    }
  }

  lemma InspectConcludes(c: Config, s: State, id: nat, at: int)
    requires HeldAt(s, id, ChannelOpen(at)) && s.msgs[id].body.scan in s.finished && c.services != []
    ensures var s' := Apply(c, s, Inspect(id, Answered));
      && HeldAt(s', id, Concluding(at, s.finished[s.msgs[id].body.scan], 0))
      && s'.msgs[id].body == s.msgs[id].body && s'.msgs[id].token == s.msgs[id].token && s'.notes == s.notes
  {
  }

  /** A crash, the redelivery and the poll that follows, up to the services. */
  lemma PolledAgain(c: Config, s: State, id: nat) returns (es: seq<Event>)
    requires id in s.msgs && s.msgs[id].place.InHand? && s.now < s.msgs[id].body.dropBy
      && s.msgs[id].body.scan in s.finished
    requires c.services != []
    ensures var s' := Run(c, s, es);
      && HeldAt(s', id, Concluding(s.now, s.finished[s.msgs[id].body.scan], 0))
      && s'.msgs[id].body == s.msgs[id].body && s'.msgs[id].token == s.msgs[id].token && s'.notes == s.notes
  {
    var crash, check := [Crash(id), Deliver(id)], [CheckExpiry(id), OpenChannel(id, true)];
    RedeliveredAfterCrash(c, s, id);
    var s1 := Run(c, s, crash);
    CheckedAndOpened(c, s1, id);
    RunConcat(c, s, crash, check);
    RunSnoc(c, s, crash + check, Inspect(id, Answered));
    InspectConcludes(c, Run(c, s1, check), id, s.now);
    es := crash + check + [Inspect(id, Answered)];
  }

  /**
   From any state with a delivery in hand whose token has its note and has not expired, a crash lets the
   redelivered message be notified once more: a second note for the token.
   */
  lemma CrashDuplicatesFeedback(c: Config, s: State, id: nat, own: nat) returns (es: seq<Event>)
    requires id in s.msgs && s.msgs[id].place.InHand? && Noted(s, s.msgs[id].token)
    requires s.now < s.msgs[id].body.dropBy && s.msgs[id].body.scan in s.finished
    requires own < |c.services| && Guard(c.services[own]) == s.msgs[id].body.workflow
    ensures var notes := Run(c, s, es).notes;
      exists i, j :: 0 <= i < j < |notes| && notes[i].token == notes[j].token == s.msgs[id].token
  {
    var again := PolledAgain(c, s, id);
    RestNotified(c, Run(c, s, again), id, s.now, s.finished[s.msgs[id].body.scan], 0, own);
    RunConcat(c, s, again, CallRest(c, id, 0));
    es := again + CallRest(c, id, 0);
    NotesGrow(c, s, es);
    var notes := Run(c, s, es).notes;
    var i :| 0 <= i < |s.notes| && s.notes[i].token == s.msgs[id].token;
    assert notes[i].token == notes[|s.notes|].token == s.msgs[id].token;
  }

  lemma RunTwo(c: Config, s: State, a: Event, b: Event)
    ensures Run(c, s, [a, b]) == Apply(c, Apply(c, s, a), b)
  {
    RunSnoc(c, s, [], a);
    RunSnoc(c, s, [a], b);
    assert [] + [a] == [a] && [a] + [b] == [a, b];
  }
}
