/**
 The background task list: `in_background`, the completion callback and `wait_for_exit` share one list under
 one non-reentrant lock, while the event loop finishes futures at any moment. Every interleaving is a run.
 */
module Tasks {
  import opened Runs

  /** Who holds the lock, and how far the holder has come. */
  datatype Holder =
    | Free
    | Registering(f: nat) // the coroutine is submitted, no callback attached yet
    | Attached(f: nat)    // the callback is attached, the future not yet in the list
    | Calling(f: nat)     // the callback of a finished future
    | Stuck(f: nat)       // the callback ran inline and waits for the lock its own thread holds

  /** Futures are numbered in the order they are submitted. */
  datatype State = State(
    holder: Holder,
    monitored: seq<nat>,
    submitted: nat,
    done: set<nat>,
    armed: set<nat>,   // futures with the callback attached
    pending: set<nat>, // finished and armed: their callback waits for the lock
    called: set<nat>,  // futures whose callback has run
    missed: bool,      // some callback did not find its future in the list
    exited: bool)

  datatype Event = Submit | Attach | Append | Finish(f: nat) | EnterCallback(f: nat) | LeaveCallback | Check

  const Start: State := State(Free, [], 0, {}, {}, {}, {}, false, false)

  /** `list.remove` without its error: the first occurrence goes. */
  function RemoveFirst(s: seq<nat>, x: nat): seq<nat>
  {
    if s == [] then []
    else if s[0] == x then s[1..]
    else [s[0]] + RemoveFirst(s[1..], x)
  }

  lemma {:induction false} RemoveFirstTakes(s: seq<nat>, x: nat)
    ensures x !in s ==> RemoveFirst(s, x) == s
    ensures x in s ==> multiset(RemoveFirst(s, x)) == multiset(s) - multiset{x}
  {
    if s != [] {
      assert s == [s[0]] + s[1..];
      RemoveFirstTakes(s[1..], x);
    }
  }

  lemma {:induction false} RemoveAt(s: seq<nat>, x: nat, i: nat)
    requires i < |s| && s[i] == x && forall k :: 0 <= k < i ==> s[k] != x
    ensures RemoveFirst(s, x) == s[..i] + s[i + 1..]
  {
    if i > 0 {
      RemoveAt(s[1..], x, i - 1);
      assert [s[0]] + (s[1..][..i - 1] + s[1..][i..]) == s[..i] + s[i + 1..];
    }
  }

  /** One step; an event that is not possible leaves the state as it is. */
  function Apply(s: State, e: Event): State
  {
    match e
    case Submit =>
      if s.holder.Free? then s.(holder := Registering(s.submitted), submitted := s.submitted + 1) else s
    case Attach =>
      if !s.holder.Registering? then s
      else if s.holder.f in s.done then s.(holder := Stuck(s.holder.f))
      else s.(holder := Attached(s.holder.f), armed := s.armed + {s.holder.f})
    case Append =>
      if s.holder.Attached? then s.(holder := Free, monitored := s.monitored + [s.holder.f]) else s
    case Finish(f) =>
      if f < s.submitted && f !in s.done
      then s.(done := s.done + {f}, pending := if f in s.armed then s.pending + {f} else s.pending)
      else s
    case EnterCallback(f) =>
      if s.holder.Free? && f in s.pending then s.(holder := Calling(f), pending := s.pending - {f}) else s
    case LeaveCallback =>
      if s.holder.Calling?
      then s.(holder := Free, monitored := RemoveFirst(s.monitored, s.holder.f),
              called := s.called + {s.holder.f}, missed := s.missed || s.holder.f !in s.monitored)
      else s
    case Check =>
      if s.holder.Free? && s.monitored == [] then s.(exited := true) else s
  }

  function Run(s: State, es: seq<Event>): State
  {
    if es == [] then s else Apply(Run(s, es[..|es| - 1]), es[|es| - 1])
  }

  lemma RunSnoc(s: State, es: seq<Event>, e: Event)
    ensures Run(s, es + [e]) == Apply(Run(s, es), e)
  {
    assert (es + [e])[..|es + [e]| - 1] == es;
  }

  lemma RunConcat(s: State, es: seq<Event>, more: seq<Event>)
    ensures Run(s, es + more) == Run(Run(s, es), more)
  {
    var run := (t: State, gs: seq<Event>) => Run(t, gs);
    var step := (t: State, e: Event) => Apply(t, e);
    forall t: State, gs: seq<Event>, e: Event ensures run(t, gs + [e]) == step(run(t, gs), e) {
      RunSnoc(t, gs, e);
    }
    Concat(run, step, s, es, more);
  }

  // ---- the invariant

  /** Where a submitted future is: exactly one of these holds at any time. */
  predicate Placed(s: State, f: nat)
  {
    && (f in s.monitored <==> f in s.armed && f !in s.called && s.holder != Attached(f))
    && (f in s.pending <==> f in s.armed && f in s.done && f !in s.called && s.holder != Calling(f))
    && (f in s.called ==> f in s.done && f in s.armed)
    && (f in s.done || f in s.armed ==> f < s.submitted)
    && (f < s.submitted && f !in s.armed ==> s.holder == Registering(f) || s.holder == Stuck(f))
    && (s.holder == Attached(f) ==> f in s.armed && f !in s.called)
    && (s.holder == Calling(f) ==> f in s.armed && f in s.done && f !in s.called)
    && (s.holder == Registering(f) ==> f < s.submitted && f !in s.armed)
    && (s.holder == Stuck(f) ==> f !in s.armed)
    && multiset(s.monitored)[f] <= 1
  }

  lemma SubmitPlaced(s: State, f: nat)
    requires forall g :: Placed(s, g)
    ensures Placed(Apply(s, Submit), f)
  {
    assert Placed(s, f) && Placed(s, s.submitted);
  }

  lemma AttachPlaced(s: State, f: nat)
    requires forall g :: Placed(s, g)
    ensures Placed(Apply(s, Attach), f)
  {
    assert Placed(s, f);
  }

  lemma AppendPlaced(s: State, f: nat)
    requires forall g :: Placed(s, g)
    ensures Placed(Apply(s, Append), f)
  {
    assert Placed(s, f);
    if s.holder.Attached? {
      assert Placed(s, s.holder.f);
    }
  }

  lemma FinishPlaced(s: State, g: nat, f: nat)
    requires forall h :: Placed(s, h)
    ensures Placed(Apply(s, Finish(g)), f)
  {
    assert Placed(s, f);
  }

  lemma EnterPlaced(s: State, g: nat, f: nat)
    requires forall h :: Placed(s, h)
    ensures Placed(Apply(s, EnterCallback(g)), f)
  {
    assert Placed(s, f);
  }

  lemma LeavePlaced(s: State, f: nat)
    requires forall g :: Placed(s, g)
    ensures Placed(Apply(s, LeaveCallback), f)
  {
    assert Placed(s, f);
    if s.holder.Calling? {
      assert Placed(s, s.holder.f);
      LeftOthers(s.monitored, s.holder.f, f);
    }
  }

  lemma StepPlaced(s: State, e: Event, f: nat)
    requires forall g :: Placed(s, g)
    ensures Placed(Apply(s, e), f)
  {
    match e
    case Submit => SubmitPlaced(s, f);
    case Attach => AttachPlaced(s, f);
    case Append => AppendPlaced(s, f);
    case Finish(g) => FinishPlaced(s, g, f);
    case EnterCallback(g) => EnterPlaced(s, g, f);
    case LeaveCallback => LeavePlaced(s, f);
    case Check => assert Placed(s, f);
  }

  lemma LeftOthers(s: seq<nat>, x: nat, y: nat)
    requires x in s && multiset(s)[x] <= 1
    ensures y in RemoveFirst(s, x) <==> y in s && y != x
    ensures multiset(RemoveFirst(s, x))[y] <= multiset(s)[y]
  {
    var r := RemoveFirst(s, x);
    RemoveFirstTakes(s, x);
    assert y in r <==> y in multiset(r);
    assert y in s <==> y in multiset(s);
  }

  lemma {:induction false} RunPlaced(es: seq<Event>)
    ensures forall f :: Placed(Run(Start, es), f)
  {
    if es != [] {
      var s := Run(Start, es[..|es| - 1]);
      RunPlaced(es[..|es| - 1]);
      var t := Apply(s, es[|es| - 1]);
      forall f: nat ensures Placed(t, f) {
        StepPlaced(s, es[|es| - 1], f);
      }
    }
  }

  // ---- safety over every interleaving

  /** No completion callback ever fails to find its future in the list. */
  lemma {:induction false} CallbackFindsItsFuture(es: seq<Event>)
    ensures !Run(Start, es).missed
  {
    if es != [] {
      var s := Run(Start, es[..|es| - 1]);
      CallbackFindsItsFuture(es[..|es| - 1]);
      RunPlaced(es[..|es| - 1]);
      if s.holder.Calling? {
        assert Placed(s, s.holder.f);
      }
    }
  }

  /** Whenever the lock is free, the list holds exactly the registered tasks whose callback has not run, once each. */
  lemma ListIsUncalled(es: seq<Event>, f: nat)
    requires Run(Start, es).holder.Free?
    ensures f in Run(Start, es).monitored <==> f < Run(Start, es).submitted && f !in Run(Start, es).called
    ensures multiset(Run(Start, es).monitored)[f] <= 1
  {
    RunPlaced(es);
    assert Placed(Run(Start, es), f);
  }

  predicate AllComplete(s: State)
  {
    forall f: nat :: f < s.submitted ==> f in s.done && f in s.called
  }

  /** `wait_for_exit` leaves exactly when the lock is free and every task registered so far has completed. */
  lemma ExitsOnlyWhenComplete(es: seq<Event>)
    requires !Run(Start, es).exited
    ensures Apply(Run(Start, es), Check).exited <==> Run(Start, es).holder.Free? && AllComplete(Run(Start, es))
  {
    var s := Run(Start, es);
    RunPlaced(es);
    if s.holder.Free? {
      if s.monitored == [] {
        forall f: nat | f < s.submitted ensures f in s.done && f in s.called {
          assert Placed(s, f);
        }
      } else {
        assert Placed(s, s.monitored[0]) && s.monitored[0] in s.monitored;
      }
    }
  }

  // ---- and it can always leave, unless a registration met an already finished future

  lemma {:induction false} StuckForever(s: State, es: seq<Event>)
    requires s.holder.Stuck? && !s.exited
    ensures Run(s, es).holder == s.holder && !Run(s, es).exited && Run(s, es).monitored == s.monitored
  {
    if es != [] {
      StuckForever(s, es[..|es| - 1]);
    }
  }

  /** Finish a monitored task, if need be, and let its callback through. */
  function Settle(f: nat): seq<Event>
  {
    [Finish(f), EnterCallback(f), LeaveCallback]
  }

  lemma SettleOne(s: State)
    requires s.holder.Free? && s.monitored != []
    requires Placed(s, s.monitored[0])
    ensures var t := Run(s, Settle(s.monitored[0]));
            t.holder.Free? && |t.monitored| < |s.monitored|
  {
    var f := s.monitored[0];
    RunThree(s, Finish(f), EnterCallback(f), LeaveCallback);
    var a := Apply(s, Finish(f));
    assert f in a.pending && a.monitored == s.monitored;
    RemoveFirstTakes(s.monitored, f);
    assert |multiset(RemoveFirst(s.monitored, f))| < |multiset(s.monitored)|;
  }

  /** A reachable state with the lock free and tasks left has a successor with fewer of them. */
  lemma SettleNext(es: seq<Event>) returns (longer: seq<Event>)
    requires Run(Start, es).holder.Free? && Run(Start, es).monitored != []
    ensures es <= longer && Run(Start, longer).holder.Free?
    ensures |Run(Start, longer).monitored| < |Run(Start, es).monitored|
  {
    var s := Run(Start, es);
    RunPlaced(es);
    SettleOne(s);
    RunConcat(Start, es, Settle(s.monitored[0]));
    longer := es + Settle(s.monitored[0]);
  }

  /** From every reachable state with the lock free, finishing what is monitored lets `wait_for_exit` leave. */
  lemma {:induction false} CanExit(es: seq<Event>) returns (all: seq<Event>)
    requires Run(Start, es).holder.Free?
    ensures es <= all && Run(Start, all).exited
    decreases |Run(Start, es).monitored|
  {
    if Run(Start, es).monitored == [] {
      all := es + [Check];
      RunSnoc(Start, es, Check);
    } else {
      var longer := SettleNext(es);
      all := CanExit(longer);
    }
  }

  // ---- the object: each critical section is a run of the machine

  /** Registration with the lock free; `early` when the future finished before its callback was attached. */
  function Registration(f: nat, early: bool): seq<Event>
  {
    if early then [Submit, Finish(f), Attach] else [Submit, Attach, Append]
  }

  lemma RunThree(s: State, a: Event, b: Event, c: Event)
    ensures Run(s, [a, b, c]) == Apply(Apply(Apply(s, a), b), c)
    ensures Run(s, [a, b]) == Apply(Apply(s, a), b)
  {
    assert [a, b, c][..2] == [a, b] && [a, b][..1] == [a] && [a][..0] == [];
    assert Run(s, [a]) == Apply(s, a);
  }

  class TaskManager {
    var monitored: seq<nat>
    var locked: bool
    ghost var view: State

    ghost predicate Valid()
      reads this
    {
      view.monitored == monitored && (locked <==> !view.holder.Free?)
    }

    constructor ()
      ensures Valid() && view == Start
    {
      monitored, locked, view := [], false, Start;
    }

    /**
     Registers a coroutine. If its future is already finished when the callback is attached, the callback runs
     here, waits for the lock its own thread holds and the future never gets into the list.
     */
    method InBackground(f: nat, early: bool)
      requires Valid() && !locked && f == view.submitted && f !in view.done && f !in view.armed
      modifies this
      ensures Valid() && view == Run(old(view), Registration(f, early))
      ensures locked == early && (early ==> view.holder == Stuck(f))
      ensures multiset(monitored) == multiset(old(monitored)) + if early then multiset{} else multiset{f}
    {
      RunThree(view, Submit, Finish(f), Attach);
      RunThree(view, Submit, Attach, Append);
      locked := true;
      view := Run(view, Registration(f, early));
      if early {
        return;
      }
      monitored := monitored + [f];
      locked := false;
    }

    /** The completion callback of a finished future; `found` is false where `list.remove` raises. */
    method Callback(f: nat) returns (found: bool)
      requires Valid() && !locked && f in view.pending
      modifies this
      ensures Valid() && !locked && view == Run(old(view), [EnterCallback(f), LeaveCallback])
      ensures found <==> f in old(monitored)
      ensures view.missed <==> old(view).missed || !found
    {
      RunThree(view, EnterCallback(f), LeaveCallback, Check);
      locked := true;
      found := false;
      var i := 0;
      while i < |monitored| && monitored[i] != f
        invariant 0 <= i <= |monitored|
        invariant forall k :: 0 <= k < i ==> monitored[k] != f
        invariant monitored == old(monitored) && view == old(view)
      {
        i := i + 1;
      }
      if i < |monitored| {
        found := true;
        RemoveAt(monitored, f, i);
        monitored := monitored[..i] + monitored[i + 1..];
      } else {
        RemoveFirstTakes(monitored, f);
      }
      locked := false;
      view := Run(view, [EnterCallback(f), LeaveCallback]);
    }

    /** One pass of the waiting loop. */
    method CheckExit() returns (exit: bool)
      requires Valid() && !locked
      modifies this
      ensures Valid() && !locked && view == Apply(old(view), Check)
      ensures exit <==> monitored == []
      ensures exit ==> view.exited
      ensures monitored == old(monitored)
    {
      locked := true;
      exit := |monitored| == 0;
      view := Apply(view, Check);
      locked := false;
    }
  }

  /** wait_for_exit on an object reached by any run: the pass that leaves does so with every task completed. */
  method LeavesComplete(m: TaskManager, ghost es: seq<Event>) returns (exit: bool)
    requires m.Valid() && !m.locked && m.view == Run(Start, es) && !m.view.exited
    modifies m
    ensures exit <==> AllComplete(old(m.view))
  {
    ExitsOnlyWhenComplete(es);
    exit := m.CheckExit();
  }
}
