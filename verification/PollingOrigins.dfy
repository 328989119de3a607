/**
 Where the polling protocol's tokens come from and why they end: every message and note goes back to one
 started scan, and every conclusion to what the outside world answered.
 */
module PollingOrigins {
  import opened Names
  import opened Polling
  import opened PollingTokens
  import T = Topology

  // ---- starting a scan

  /** 9999-12-31T00:00:00Z in milliseconds: the drop-by time of a scan without a budget. */
  const END_OF_TIME: int := 253402214400000

  /**
   Starting a scan whose await message is accepted adds exactly one message, waiting in the new await queue,
   for that very scan and project, under its workflow's await topic and with the first interval as its delay.
   A refused message, or one under a dotted moniker, adds nothing.
   */
  lemma BeginAdds(c: Config, s: State, scan: string, project: string, moniker: string, workflow: ScanWorkflow,
                  details: string, interval: nat, budget: nat, accepted: bool)
    requires WellFormed(s)
    ensures var s' := Apply(c, s, Begin(scan, project, moniker, workflow, details, interval, budget, accepted));
      if !accepted || '.' in moniker then s' == s
      else
        && s.nextId !in s.msgs && s'.msgs.Keys == s.msgs.Keys + {s.nextId}
        && (forall id :: id in s.msgs ==> s'.msgs[id] == s.msgs[id])
        && s.nextToken !in s.started && s'.msgs[s.nextId].token == s.nextToken
        && s'.notes == s.notes && s'.concluded == s.concluded && s'.now == s.now
        && var m := s'.msgs[s.nextId];
           && m.place == Waiting(s.now) && m.epoch == Current && m.delay == interval
           && m.body.scan == scan && m.body.project == project && m.body.moniker == moniker
           && m.body.workflow == workflow && m.body.details == details
           && m.body.dropBy == (if budget == 0 then END_OF_TIME else s.now + budget)
           && m.key.moniker == moniker && m.key.kind == (if workflow == PR then T.PrAwait else T.PushAwait)
  {
  }

  /** A scan without a time budget is never found expired before the end of time. */
  lemma NoBudgetNeverExpires(c: Config, s: State, id: nat)
    requires HeldAt(s, id, Received) && s.now < END_OF_TIME
    requires s.msgs[id].token in s.started && s.msgs[id].body == s.started[s.msgs[id].token].body
    requires s.started[s.msgs[id].token].budget == 0
    requires s.msgs[id].body.dropBy == DropBy(s.started[s.msgs[id].token].at, 0)
    ensures HeldAt(Apply(c, s, CheckExpiry(id)), id, Checked(s.now))
  {
  }

  /** This event started the scan this body is about. */
  ghost predicate BegunBy(e: Event, b: Body)
  {
    && e.Begin? && e.accepted
    && b.scan == e.scan && b.project == e.project && b.moniker == e.moniker
    && b.workflow == e.workflow && b.details == e.details
  }

  lemma EffectsBegun(c: Config, s: State, e: Event)
    ensures Effects(c, s, e).Create? ==> BegunBy(e, Effects(c, s, e).origin.body)
  {
  }

  lemma CommitOrigins(c: Config, s: State, f: Effect, t: nat)
    requires f.Move? || f.Send? || f.Replace? || f.Conclude? ==> f.id in s.msgs
    requires WellFormed(s) && t in Commit(c, s, f).started
    ensures t in s.started ==> Commit(c, s, f).started[t] == s.started[t]
    ensures t !in s.started ==> f.Create? && Commit(c, s, f).started[t] == f.origin
  {
  }

  lemma StepOrigins(c: Config, s: State, e: Event, t: nat)
    requires WellFormed(s) && ProgressTrue(s) && t in Apply(c, s, e).started
    ensures t in s.started ==> Apply(c, s, e).started[t] == s.started[t]
    ensures t !in s.started ==> BegunBy(e, Apply(c, s, e).started[t].body)
  {
    EffectsLegal(c, s, e);
    EffectsBegun(c, s, e);
    CommitOrigins(c, s, Effects(c, s, e), t);
  }

  /** Every token started during a run was started by one of its events. */
  lemma {:induction false} TokenBegun(c: Config, s: State, es: seq<Event>, t: nat) returns (i: nat)
    requires Initial(s) && t in Run(c, s, es).started && t >= s.nextToken
    ensures i < |es| && BegunBy(es[i], Run(c, s, es).started[t].body)
  {
    i := 0;
    if es != [] {
      var before, e := Run(c, s, es[..|es| - 1]), es[|es| - 1];
      NeverLost(c, s, es[..|es| - 1]);
      RunLast(c, s, es);
      StepOrigins(c, before, e, t);
      if t in before.started {
        i := TokenBegun(c, s, es[..|es| - 1], t);
      } else {
        i := |es| - 1;
      }
    }
  }

  lemma StepFinished(c: Config, s: State, e: Event, scan: string)
    ensures var s' := Apply(c, s, e);
      && (scan in s.finished ==> scan in s'.finished && s'.finished[scan] == s.finished[scan])
      && (scan !in s.finished && scan in s'.finished ==> e == ScanEnds(scan, s'.finished[scan]))
      && (e.ScanEnds? ==> e.scan in s'.finished)
  {
  }

  lemma {:induction false} EndedIsFinished(c: Config, s: State, es: seq<Event>, j: nat)
    requires j < |es| && es[j].ScanEnds?
    ensures es[j].scan in Run(c, s, es).finished
  {
    StepFinished(c, Run(c, s, es[..|es| - 1]), es[|es| - 1], es[j].scan);
    if j < |es| - 1 {
      EndedIsFinished(c, s, es[..|es| - 1], j);
    }
    RunLast(c, s, es);
  }

  /** This event is the first to say how this scan ended. */
  ghost predicate FirstEnd(es: seq<Event>, i: nat, scan: string, success: bool)
  {
    i < |es| && es[i] == ScanEnds(scan, success) && forall j :: 0 <= j < i ==> !(es[j].ScanEnds? && es[j].scan == scan)
  }

  /** How a scan is known to have ended is what was first said of it during the run. */
  lemma {:induction false} FinishedFromEvents(c: Config, s: State, es: seq<Event>, scan: string) returns (i: nat)
    requires scan in Run(c, s, es).finished && scan !in s.finished
    ensures FirstEnd(es, i, scan, Run(c, s, es).finished[scan])
  {
    i := 0;
    if es != [] {
      var before, e := Run(c, s, es[..|es| - 1]), es[|es| - 1];
      StepFinished(c, before, e, scan);
      RunLast(c, s, es);
      if scan in before.finished {
        i := FinishedFromEvents(c, s, es[..|es| - 1], scan);
      } else {
        i := |es| - 1;
        forall j | 0 <= j < i && es[j].ScanEnds? && es[j].scan == scan ensures false {
          EndedIsFinished(c, s, es[..|es| - 1], j);
        }
      }
    }
  }

  /**
   In any run, crashes included, every message published for a scan started during the run names exactly the
   scan, project, moniker and details of one event that started it, says whether that very scan failed, and is
   of the kind its workflow's readers expect.
   */
  lemma NotesFromEvents(c: Config, s: State, es: seq<Event>, k: nat) returns (i: nat)
    requires Initial(s) && k < |Run(c, s, es).notes| && Run(c, s, es).notes[k].token >= s.nextToken
    ensures i < |es| && es[i].Begin? && es[i].accepted
    ensures var n := Run(c, s, es).notes[k];
      && n.scan == es[i].scan && n.project == es[i].project
      && n.moniker == es[i].moniker && n.details == es[i].details
      && es[i].scan in Run(c, s, es).finished && (n.isError <==> !Run(c, s, es).finished[es[i].scan])
      && n.key.moniker == es[i].moniker
      && n.key.kind == (if es[i].workflow == Push then T.PushFeedbackMsg
                        else if n.isError then T.PrAnnotateMsg else T.PrFeedbackMsg)
  {
    FeedbackFaithful(c, s, es);
    var n := Run(c, s, es).notes[k];
    assert Faithful(c, Run(c, s, es), n);
    i := TokenBegun(c, s, es, n.token);
  }

  /** And it reaches exactly the queue of those readers. */
  lemma NotesReachReaders(c: Config, s: State, es: seq<Event>, k: nat, tags: set<string>, q: T.Queue)
    requires Initial(s) && k < |Run(c, s, es).notes| && T.ValidTags(tags)
    ensures var n := Run(c, s, es).notes[k];
      && n.token in Run(c, s, es).started
      && (T.Reaches(T.Bindings(tags), T.ScanIn, n.key.Text(), q) <==>
          q == if Run(c, s, es).started[n.token].body.workflow == Push then T.GenerateSarif
               else if n.isError then T.PrAnnotating else T.PrFeedback)
  {
    FeedbackFaithful(c, s, es);
    RunKeys(c, s, es);
    var n := Run(c, s, es).notes[k];
    assert Faithful(c, Run(c, s, es), n);
    T.ScanInReachesExactly(tags, n.key.kind, n.key.moniker, q);
  }

  // ---- why tokens end

  /** The token the scan service answers with an error response, if this event is such an answer. */
  ghost function RejectedBy(s: State, e: Event): set<nat>
  {
    if e.Inspect? && e.answer == ResponseError && e.id in s.msgs then {s.msgs[e.id].token} else {}
  }

  /** The token whose poll gets no channel, or the publish of whose replacement raises, if this event is that. */
  ghost function BrokenBy(s: State, e: Event): set<nat>
  {
    if ((e.OpenChannel? && !e.opens) || (e.Republish? && e.outcome == Raised)) && e.id in s.msgs
    then {s.msgs[e.id].token} else {}
  }

  /** The tokens that met one or the other during a run. */
  ghost function Collect(c: Config, s: State, es: seq<Event>, of: (State, Event) -> set<nat>): set<nat>
  {
    if es == [] then {}
    else Collect(c, s, es[..|es| - 1], of) + of(Run(c, s, es[..|es| - 1]), es[|es| - 1])
  }

  /** What brought a delivery to this point. */
  ghost predicate PlaceExplained(s: State, rejected: set<nat>, broken: set<nat>, m: Message)
  {
    m.place.InHand? ==>
      match m.place.progress
      case Stopping => m.token in rejected
      case Failing => m.token in broken
      case Expiring => s.now >= m.body.dropBy
      case Notified => m.body.scan in s.finished
      case Concluding(_, _, _) => m.body.scan in s.finished
      case _ => true
  }

  ghost predicate ConclusionExplained(s: State, rejected: set<nat>, broken: set<nat>, t: nat)
    requires t in s.concluded
  {
    && t in s.started
    && match s.concluded[t]
       case Expired => s.now >= s.started[t].body.dropBy
       case Finished => s.started[t].body.scan in s.finished
       case Stopped => t in rejected
       case Dropped => t in broken
  }

  ghost predicate Explained(s: State, rejected: set<nat>, broken: set<nat>)
  {
    && WellFormed(s)
    && (forall id :: id in s.msgs ==> PlaceExplained(s, rejected, broken, s.msgs[id]))
    && (forall t :: t in s.concluded ==> ConclusionExplained(s, rejected, broken, t))
  }

  /** Effects and their reasons: a delivery gets to its last point, and is settled, only as the source says. */
  ghost predicate Reasoned(s: State, e: Event, f: Effect)
  {
    match f
    case Move(id, place, _) =>
      && id in s.msgs
      && (place == InHand(Stopping) ==> s.msgs[id].token in RejectedBy(s, e))
      && (place == InHand(Failing) ==> s.msgs[id].token in BrokenBy(s, e))
      && (place == InHand(Expiring) ==> s.now >= s.msgs[id].body.dropBy)
      && (place == InHand(Notified) || (place.InHand? && place.progress.Concluding?) ==>
            s.msgs[id].body.scan in s.finished)
    case Send(id, _, place) =>
      && id in s.msgs && s.msgs[id].place.InHand? && s.msgs[id].place.progress.Concluding?
      && place.InHand? && (place.progress == Notified || place.progress.Concluding?)
    case Conclude(id, how) =>
      && id in s.msgs
      && (how == Expired ==> s.msgs[id].place == InHand(Expiring))
      && (how == Finished ==> s.msgs[id].place == InHand(Notified))
      && (how == Stopped ==> s.msgs[id].place == InHand(Stopping))
      && (how == Dropped ==> s.msgs[id].place == InHand(Failing))
    case _ => true
  }

  lemma EffectsReasoned(c: Config, s: State, e: Event)
    ensures Reasoned(s, e, Effects(c, s, e))
  {
  }

  /** Time goes on, ended scans stay ended, origins stay. */
  lemma Onward(c: Config, s: State, f: Effect, crash: bool)
    requires WellFormed(s) && Legal(c, s, f, crash)
    ensures s.now <= Commit(c, s, f).now && s.finished.Keys <= Commit(c, s, f).finished.Keys
    ensures forall t :: t in s.started ==> t in Commit(c, s, f).started && Commit(c, s, f).started[t] == s.started[t]
  {
  }

  lemma MovedExplained(c: Config, s: State, e: Event, f: Effect, rejected: set<nat>, broken: set<nat>, id: nat)
    requires f.Move? || f.Send?
    requires Explained(s, rejected, broken) && Legal(c, s, f, e.Crash?) && Reasoned(s, e, f)
    requires id in Commit(c, s, f).msgs
    ensures PlaceExplained(Commit(c, s, f), rejected + RejectedBy(s, e), broken + BrokenBy(s, e),
                           Commit(c, s, f).msgs[id])
  {
    assert PlaceExplained(s, rejected, broken, s.msgs[id]);
  }

  lemma UnmovedExplained(c: Config, s: State, e: Event, f: Effect, rejected: set<nat>, broken: set<nat>, id: nat)
    requires !f.Move? && !f.Send?
    requires Explained(s, rejected, broken) && Legal(c, s, f, e.Crash?) && Reasoned(s, e, f)
    requires id in Commit(c, s, f).msgs
    ensures PlaceExplained(Commit(c, s, f), rejected + RejectedBy(s, e), broken + BrokenBy(s, e),
                           Commit(c, s, f).msgs[id])
  {
    if id in s.msgs {
      assert PlaceExplained(s, rejected, broken, s.msgs[id]);
    }
  }

  lemma MessageExplained(c: Config, s: State, e: Event, f: Effect, rejected: set<nat>, broken: set<nat>, id: nat)
    requires Explained(s, rejected, broken) && Legal(c, s, f, e.Crash?) && Reasoned(s, e, f)
    requires id in Commit(c, s, f).msgs
    ensures PlaceExplained(Commit(c, s, f), rejected + RejectedBy(s, e), broken + BrokenBy(s, e),
                           Commit(c, s, f).msgs[id])
  {
    if f.Move? || f.Send? {
      MovedExplained(c, s, e, f, rejected, broken, id);
    } else {
      UnmovedExplained(c, s, e, f, rejected, broken, id);
    }
  }

  lemma TokenExplained(c: Config, s: State, e: Event, f: Effect, rejected: set<nat>, broken: set<nat>, t: nat)
    requires Explained(s, rejected, broken) && Legal(c, s, f, e.Crash?) && Reasoned(s, e, f)
    requires t in Commit(c, s, f).concluded
    ensures ConclusionExplained(Commit(c, s, f), rejected + RejectedBy(s, e), broken + BrokenBy(s, e), t)
  {
    Onward(c, s, f, e.Crash?);
    if f.Conclude? && s.msgs[f.id].token == t {
      assert PlaceExplained(s, rejected, broken, s.msgs[f.id]);
    } else {
      assert ConclusionExplained(s, rejected, broken, t);
    }
  }

  lemma CommitExplained(c: Config, s: State, e: Event, f: Effect, rejected: set<nat>, broken: set<nat>)
    requires Explained(s, rejected, broken) && Legal(c, s, f, e.Crash?) && Reasoned(s, e, f)
    ensures Explained(Commit(c, s, f), rejected + RejectedBy(s, e), broken + BrokenBy(s, e))
  {
    var s' := Commit(c, s, f);
    CommitWellFormed(c, s, f, e.Crash?);
    forall id | id in s'.msgs
      ensures PlaceExplained(s', rejected + RejectedBy(s, e), broken + BrokenBy(s, e), s'.msgs[id])
    {
      MessageExplained(c, s, e, f, rejected, broken, id);
    }
    forall t | t in s'.concluded
      ensures ConclusionExplained(s', rejected + RejectedBy(s, e), broken + BrokenBy(s, e), t)
    {
      TokenExplained(c, s, e, f, rejected, broken, t);
    }
  }

  lemma StepExplained(c: Config, s: State, e: Event, rejected: set<nat>, broken: set<nat>)
    requires Explained(s, rejected, broken) && ProgressTrue(s)
    ensures Explained(Apply(c, s, e), rejected + RejectedBy(s, e), broken + BrokenBy(s, e))
  {
    EffectsLegal(c, s, e);
    EffectsReasoned(c, s, e);
    CommitExplained(c, s, e, Effects(c, s, e), rejected, broken);
  }

  /**
   Why a token concluded, in any run, crashes included: expired only past its drop-by time, finished only once
   its scan had ended, stopped only when the scan service answered one of its polls with an error response,
   dropped only when a channel failed to open or a publish of its replacement raised.
   */
  lemma {:induction false} ConclusionsExplained(c: Config, s: State, es: seq<Event>)
    requires Initial(s)
    ensures Explained(Run(c, s, es), Collect(c, s, es, RejectedBy), Collect(c, s, es, BrokenBy))
  {
    if es != [] {
      ConclusionsExplained(c, s, es[..|es| - 1]);
      NeverLost(c, s, es[..|es| - 1]);
      StepExplained(c, Run(c, s, es[..|es| - 1]), es[|es| - 1],
                    Collect(c, s, es[..|es| - 1], RejectedBy), Collect(c, s, es[..|es| - 1], BrokenBy));
      RunLast(c, s, es);
    }
  }
}
