/** Admission of kickoff scans: a limit checked against a snapshot, with several calls in flight. */
module Kickoff {
  import opened Runs
  import opened Options

  /** The limit from the configuration: at most 10, at least 1. */
  function Clamp(configured: int): (m: nat)
    ensures 1 <= m <= 10
    ensures 1 <= configured <= 10 ==> m == configured
    ensures configured > 10 ==> m == 10
    ensures configured < 1 ==> m == 1
  {
    var capped := if configured < 10 then configured else 10;
    if capped > 1 then capped else 1
  }

  const TAG := "kickoff"

  /** The tags a kickoff scan is submitted with: the configured default scan tags win over the kickoff tag. */
  function SubmittedTags(commit: string, moniker: string, version: string,
                         defaults: map<string, string>): map<string, string>
  {
    map["commit" := commit, "workflow" := "push", "cxone-flow" := version, "service" := moniker][TAG := moniker]
    + defaults
  }

  /** Whether get_running_ko_scans finds such a scan. */
  predicate Counted(tags: map<string, string>, moniker: string)
  {
    TAG in tags && tags[TAG] == moniker
  }

  predicate Visible(moniker: string, defaults: map<string, string>)
  {
    TAG !in defaults || defaults[TAG] == moniker
  }

  /** Running kickoff scans are counted exactly when no default scan tag renames the kickoff tag. */
  lemma CountedIffVisible(commit: string, moniker: string, version: string, defaults: map<string, string>)
    ensures Counted(SubmittedTags(commit, moniker, version, defaults), moniker) <==> Visible(moniker, defaults)
  {
  }

  /** What is submitted, key by key: a configured default wins, and otherwise the scan says what it is and for whom. */
  lemma TagsSubmitted(commit: string, moniker: string, version: string, defaults: map<string, string>)
    ensures var tags := SubmittedTags(commit, moniker, version, defaults);
      && tags.Keys == {"commit", "workflow", "cxone-flow", "service", "kickoff"} + defaults.Keys
      && (forall k :: k in defaults ==> tags[k] == defaults[k])
      && ("commit" !in defaults ==> tags["commit"] == commit)
      && ("workflow" !in defaults ==> tags["workflow"] == "push")
      && ("cxone-flow" !in defaults ==> tags["cxone-flow"] == version)
      && ("service" !in defaults ==> tags["service"] == moniker)
      && ("kickoff" !in defaults ==> tags["kickoff"] == moniker)
  {
  }

  /** A running scan is counted for a service exactly when its kickoff tag carries the service's moniker. */
  lemma CountedByTag(tags: map<string, string>, moniker: string)
    ensures Counted(tags, moniker) <==> "kickoff" in tags && tags["kickoff"] == moniker
  {
  }

  /** Where a call of `execute` is. `seen` is the length of its snapshot. */
  datatype Phase = Begun | Snapshot(seen: nat) | Admitted | Submitted

  /** Calls in flight, and the number of kickoff scans running on the server. */
  datatype State = State(calls: map<nat, Phase>, running: nat)

  datatype Config = Config(limit: nat, width: nat, visible: bool)

  datatype Event =
    | Begin(call: nat)
    | Snap(call: nat)                          // get_running_ko_scans
    | Admit(call: nat, otherwiseFree: bool)    // the remaining checks, then the limit check
    | Submit(call: nat, succeeds: bool)
    | Return(call: nat)
    | ScanEnds

  function Apply(c: Config, s: State, e: Event): State
  {
    match e
    case Begin(k) => if k !in s.calls && |s.calls| < c.width then s.(calls := s.calls[k := Begun]) else s
    case Snap(k) =>
      if k in s.calls && s.calls[k] == Begun
      then s.(calls := s.calls[k := Snapshot(if c.visible then s.running else 0)]) else s
    case Admit(k, otherwiseFree) =>
      if !(k in s.calls && s.calls[k].Snapshot?) then s
      else if s.calls[k].seen >= c.limit || !otherwiseFree then s.(calls := s.calls - {k})
      else s.(calls := s.calls[k := Admitted])
    case Submit(k, succeeds) =>
      if !(k in s.calls && s.calls[k] == Admitted) then s
      else if succeeds then s.(calls := s.calls[k := Submitted], running := s.running + 1)
      else s.(calls := s.calls - {k})
    case Return(k) => if k in s.calls && s.calls[k] == Submitted then s.(calls := s.calls - {k}) else s
    case ScanEnds => if s.running > 0 then s.(running := s.running - 1) else s
  }

  function Run(c: Config, s: State, es: seq<Event>): State
  {
    if es == [] then s else Apply(c, Run(c, s, es[..|es| - 1]), es[|es| - 1])
  }

  const EMPTY := State(map[], 0)

  /** Calls that may still add a running scan: admitted, or with a snapshot below the limit. */
  function Pending(c: Config, s: State): set<nat>
  {
    set k | k in s.calls && (s.calls[k] == Admitted || (s.calls[k].Snapshot? && s.calls[k].seen < c.limit))
  }

  predicate Inv(c: Config, s: State)
  {
    && |s.calls| <= c.width
    && s.running + |Pending(c, s)| <= c.limit - 1 + c.width
  }

  lemma PendingWithin(c: Config, s: State)
    ensures |Pending(c, s)| <= |s.calls|
  {
    Subset(Pending(c, s), s.calls.Keys);
  }

  lemma {:induction false} Subset(a: set<nat>, b: set<nat>)
    requires a <= b
    ensures |a| <= |b|
  {
    if x :| x in a {
      Subset(a - {x}, b - {x});
    }
  }

  lemma SnapInv(c: Config, s: State, k: nat)
    requires c.limit >= 1 && c.visible && Inv(c, s)
    ensures Inv(c, Apply(c, s, Snap(k)))
  {
    if k in s.calls && s.calls[k] == Begun {
      var s' := Apply(c, s, Snap(k));
      assert s'.calls.Keys == s.calls.Keys;
      if s.running >= c.limit {
        assert Pending(c, s') == Pending(c, s);
      } else {
        PendingWithin(c, s');
      }
    }
  }

  lemma SubmitInv(c: Config, s: State, k: nat, succeeds: bool)
    requires Inv(c, s)
    ensures Inv(c, Apply(c, s, Submit(k, succeeds)))
  {
    var s' := Apply(c, s, Submit(k, succeeds));
    if k in s.calls && s.calls[k] == Admitted {
      assert Pending(c, s') == Pending(c, s) - {k};
      Subset(s'.calls.Keys, s.calls.Keys);
    }
  }

  lemma AdmitInv(c: Config, s: State, k: nat, otherwiseFree: bool)
    requires Inv(c, s)
    ensures Inv(c, Apply(c, s, Admit(k, otherwiseFree)))
  {
    var s' := Apply(c, s, Admit(k, otherwiseFree));
    Subset(Pending(c, s'), Pending(c, s));
    Subset(s'.calls.Keys, s.calls.Keys);
  }

  lemma CallInv(c: Config, s: State, e: Event)
    requires Inv(c, s) && (e.Begin? || e.Return? || e.ScanEnds?)
    ensures Inv(c, Apply(c, s, e))
  {
    var s' := Apply(c, s, e);
    assert Pending(c, s') == Pending(c, s);
    match e
    case Begin(_) =>
    case Return(_) => Subset(s'.calls.Keys, s.calls.Keys);
    case ScanEnds =>
  }

  lemma StepInv(c: Config, s: State, e: Event)
    requires c.limit >= 1 && c.visible && Inv(c, s)
    ensures Inv(c, Apply(c, s, e))
  {
    match e
    case Snap(k) => SnapInv(c, s, k);
    case Admit(k, otherwiseFree) => AdmitInv(c, s, k, otherwiseFree);
    case Submit(k, succeeds) => SubmitInv(c, s, k, succeeds);
    case _ => CallInv(c, s, e);
  }

  /**
   Whatever the interleaving of snapshots, admissions, submissions and scan ends, with W calls in flight the
   running kickoff scans and the admitted calls stay within limit - 1 + W.
   */
  lemma {:induction false} BoundedKickoffs(c: Config, es: seq<Event>)
    requires c.limit >= 1 && c.visible
    ensures Inv(c, Run(c, EMPTY, es))
    ensures Run(c, EMPTY, es).running <= c.limit - 1 + c.width
  {
    if es == [] {
      assert Pending(c, EMPTY) == {};
    } else {
      BoundedKickoffs(c, es[..|es| - 1]);
      StepInv(c, Run(c, EMPTY, es[..|es| - 1]), es[|es| - 1]);
    }
  }

  /** With serial calls the limit is kept. */
  lemma SerialKickoffs(c: Config, es: seq<Event>)
    requires c.limit >= 1 && c.visible && c.width == 1
    ensures Run(c, EMPTY, es).running <= c.limit
  {
    BoundedKickoffs(c, es);
  }

  /** Whatever limit is configured, at most 9 + W kickoff scans run. */
  lemma ClampedKickoffs(configured: int, width: nat, es: seq<Event>)
    ensures Run(Config(Clamp(configured), width, true), EMPTY, es).running <= 9 + width
  {
    BoundedKickoffs(Config(Clamp(configured), width, true), es);
  }

  // ---- the bound is attained, and without visibility there is none

  lemma RunSnoc(c: Config, s: State, es: seq<Event>, e: Event)
    ensures Run(c, s, es + [e]) == Apply(c, Run(c, s, es), e)
  {
    assert (es + [e])[..|es + [e]| - 1] == es;
  }

  lemma RunConcat(c: Config, s: State, es: seq<Event>, more: seq<Event>)
    ensures Run(c, s, es + more) == Run(c, Run(c, s, es), more)
  {
    var run := (t: State, gs: seq<Event>) => Run(c, t, gs);
    var step := (t: State, e: Event) => Apply(c, t, e);
    forall t: State, gs: seq<Event>, e: Event ensures run(t, gs + [e]) == step(run(t, gs), e) {
      RunSnoc(c, t, gs, e);
    }
    Concat(run, step, s, es, more);
  }

  lemma Chain(c: Config, s: State, a: seq<Event>, mid: State, b: seq<Event>, end: State)
    requires Run(c, s, a) == mid && Run(c, mid, b) == end
    ensures Run(c, s, a + b) == end
  {
    RunConcat(c, s, a, b);
  }

  /** A run through a sequence of states, given a run between each two. */
  lemma {:induction false} Iterate(c: Config, at: nat -> State, step: nat -> seq<Event>, n: nat)
    returns (es: seq<Event>)
    requires forall i: nat :: i < n ==> Run(c, at(i), step(i)) == at(i + 1)
    ensures Run(c, at(0), es) == at(n)
  {
    es := [];
    if n > 0 {
      var prior := Iterate(c, at, step, n - 1);
      Chain(c, at(0), prior, at(n - 1), step(n - 1), at(n));
      es := prior + step(n - 1);
    }
  }

  /** The state with `n` scans running and no call in flight. */
  function Quiet(n: nat): State
  {
    State(map[], n)
  }

  lemma Two(c: Config, s: State, a: Event, b: Event)
    ensures Run(c, s, [a, b]) == Apply(c, Apply(c, s, a), b)
  {
    assert [a, b][..1] == [a] && [a][..0] == [];
    assert Run(c, s, [a]) == Apply(c, s, a);
  }

  /** The `w` calls 0, 1, ... in flight, those below `done` submitted and the rest with a snapshot of `seen`. */
  function Calls(w: nat, done: nat, seen: nat): (calls: map<nat, Phase>)
    ensures |calls| == w
    ensures forall k: nat :: k in calls <==> k < w
    ensures forall k: nat :: k in calls ==> calls[k] == if k < done then Submitted else Snapshot(seen)
  {
    if w == 0 then map[] else Calls(w - 1, done, seen)[w - 1 := if w - 1 < done then Submitted else Snapshot(seen)]
  }

  lemma OpenOne(c: Config, n: nat, w: nat)
    requires c.visible && w < c.width
    ensures var s := Quiet(n).(calls := Calls(w, 0, n));
      Apply(c, Apply(c, s, Begin(w)), Snap(w)) == Quiet(n).(calls := Calls(w + 1, 0, n))
  {
    var calls := Calls(w, 0, n);
    var begun: map<nat, Phase> := calls[w := Begun];
    assert begun[w := Snapshot(n)] == Calls(w + 1, 0, n);
  }

  lemma OpenStep(c: Config, n: nat, w: nat)
    requires c.visible && w < c.width
    ensures Run(c, Quiet(n).(calls := Calls(w, 0, n)), [Begin(w), Snap(w)]) == Quiet(n).(calls := Calls(w + 1, 0, n))
  {
    OpenOne(c, n, w);
    Two(c, Quiet(n).(calls := Calls(w, 0, n)), Begin(w), Snap(w));
  }

  lemma OpenCalls(c: Config, n: nat, w: nat) returns (es: seq<Event>)
    requires c.visible && w <= c.width
    ensures Run(c, Quiet(n), es) == Quiet(n).(calls := Calls(w, 0, n))
  {
    var at := (i: nat) => Quiet(n).(calls := Calls(i, 0, n));
    var step := (i: nat) => [Begin(i), Snap(i)];
    forall i: nat | i < w
      ensures Run(c, at(i), step(i)) == at(i + 1)
    {
      OpenStep(c, n, i);
    }
    es := Iterate(c, at, step, w);
  }

  /** `w` calls opened when `n` scans were running, `done` of them submitted since. */
  function Mid(n: nat, w: nat, done: nat): State
  {
    State(Calls(w, done, n), n + done)
  }

  lemma SubmitOne(c: Config, n: nat, w: nat, done: nat)
    requires n < c.limit && done < w
    ensures var s := Quiet(n + done).(calls := Calls(w, done, n));
      Apply(c, Apply(c, s, Admit(done, true)), Submit(done, true)) ==
        Quiet(n + done + 1).(calls := Calls(w, done + 1, n))
  {
    var s := Quiet(n + done).(calls := Calls(w, done, n));
    NextCall(w, done, n);
    WithTwice(s, done, Admitted, Submitted);
    assert Apply(c, s, Admit(done, true)) == With(s, done, Admitted);
  }

  lemma NextCall(w: nat, done: nat, seen: nat)
    requires done < w
    ensures Calls(w, done, seen)[done := Submitted] == Calls(w, done + 1, seen)
  {
  }

  lemma SubmitStep(c: Config, n: nat, w: nat, done: nat)
    requires n < c.limit && done < w
    ensures Run(c, Mid(n, w, done), [Admit(done, true), Submit(done, true)]) == Mid(n, w, done + 1)
  {
    SubmitOne(c, n, w, done);
    Two(c, Quiet(n + done).(calls := Calls(w, done, n)), Admit(done, true), Submit(done, true));
  }

  lemma SubmitCalls(c: Config, n: nat, w: nat) returns (es: seq<Event>)
    requires n < c.limit
    ensures Run(c, Mid(n, w, 0), es) == Mid(n, w, w)
  {
    var at := (i: nat) => Mid(n, w, i);
    var step := (i: nat) => [Admit(i, true), Submit(i, true)];
    forall i: nat | i < w
      ensures Run(c, at(i), step(i)) == at(i + 1)
    {
      SubmitStep(c, n, w, i);
    }
    es := Iterate(c, at, step, w);
  }

  lemma ReturnOne(c: Config, n: nat, w: nat, seen: nat)
    requires w > 0
    ensures Run(c, Quiet(n).(calls := Calls(w, w, seen)), [Return(w - 1)]) ==
      Quiet(n).(calls := Calls(w - 1, w - 1, seen))
  {
    var start := Quiet(n).(calls := Calls(w, w, seen));
    assert [Return(w - 1)][..0] == [];
    assert start.calls - {w - 1} == Calls(w - 1, w - 1, seen);
    assert Run(c, start, [Return(w - 1)]) == Apply(c, start, Return(w - 1));
  }

  lemma {:induction false} ReturnCalls(c: Config, n: nat, w: nat, seen: nat) returns (es: seq<Event>)
    ensures Run(c, Quiet(n).(calls := Calls(w, w, seen)), es) == Quiet(n)
  {
    es := [];
    if w > 0 {
      ReturnOne(c, n, w, seen);
      var rest := ReturnCalls(c, n, w - 1, seen);
      RunConcat(c, Quiet(n).(calls := Calls(w, w, seen)), [Return(w - 1)], rest);
      es := [Return(w - 1)] + rest;
    }
  }

  /** A round of `w` overlapping calls adds `w` running scans as long as fewer than the limit were running. */
  lemma Round(c: Config, n: nat, w: nat) returns (es: seq<Event>)
    requires c.visible && n < c.limit && w <= c.width
    ensures Run(c, Quiet(n), es) == Quiet(n + w)
  {
    var a := OpenCalls(c, n, w);
    var b := SubmitCalls(c, n, w);
    var d := ReturnMid(c, n, w);
    OpenIsMid(n, w);
    ChainThree(c, Quiet(n), a, Mid(n, w, 0), b, Mid(n, w, w), d, Quiet(n + w));
    es := a + b + d;
  }

  lemma OpenIsMid(n: nat, w: nat)
    ensures Quiet(n).(calls := Calls(w, 0, n)) == Mid(n, w, 0)
  {
  }

  lemma ReturnMid(c: Config, n: nat, w: nat) returns (es: seq<Event>)
    ensures Run(c, Mid(n, w, w), es) == Quiet(n + w)
  {
    es := ReturnCalls(c, n + w, w, n);
  }

  lemma ChainThree(c: Config, s: State, a: seq<Event>, t: State, b: seq<Event>, u: State, d: seq<Event>, v: State)
    requires Run(c, s, a) == t && Run(c, t, b) == u && Run(c, u, d) == v
    ensures Run(c, s, a + b + d) == v
  {
    Chain(c, s, a, t, b, u);
    Chain(c, s, a + b, u, d, v);
  }

  lemma {:induction false} Fill(c: Config, n: nat) returns (es: seq<Event>)
    requires c.visible && n <= c.limit && c.width >= 1
    ensures Run(c, Quiet(0), es) == Quiet(n)
  {
    es := [];
    if n > 0 {
      var prior := Fill(c, n - 1);
      var last := Round(c, n - 1, 1);
      Chain(c, Quiet(0), prior, Quiet(n - 1), last, Quiet(n));
      es := prior + last;
    }
  }

  /** Some interleaving does reach limit - 1 + W running scans, for every limit and every W. */
  lemma BoundAttained(c: Config) returns (es: seq<Event>)
    requires c.visible && c.limit >= 1 && c.width >= 1
    ensures Run(c, EMPTY, es).running == c.limit - 1 + c.width
  {
    var prior := Fill(c, c.limit - 1);
    var last := Round(c, c.limit - 1, c.width);
    Chain(c, Quiet(0), prior, Quiet(c.limit - 1), last, Quiet(c.limit - 1 + c.width));
    assert EMPTY == Quiet(0);
    es := prior + last;
  }

  lemma InvisibleSteps(c: Config, n: nat)
    requires !c.visible && c.limit >= 1 && c.width >= 1
    ensures var begun := Quiet(n).(calls := map[0 := Snapshot(0)]);
      && Apply(c, Apply(c, Quiet(n), Begin(0)), Snap(0)) == begun
      && Apply(c, Apply(c, begun, Admit(0, true)), Submit(0, true)) == Quiet(n + 1).(calls := map[0 := Submitted])
  {
    assert map[0 := Begun][0 := Snapshot(0)] == map[0 := Snapshot(0)];
    assert map[0 := Snapshot(0)][0 := Admitted][0 := Submitted] == map[0 := Submitted];
  }

  lemma InvisibleCall(c: Config, n: nat) returns (es: seq<Event>)
    requires !c.visible && c.limit >= 1 && c.width >= 1
    ensures Run(c, Quiet(n), es) == Quiet(n + 1)
  {
    InvisibleSteps(c, n);
    Two(c, Quiet(n), Begin(0), Snap(0));
    Two(c, Quiet(n).(calls := map[0 := Snapshot(0)]), Admit(0, true), Submit(0, true));
    var last := ReturnCalls(c, n + 1, 1, 0);
    assert Calls(1, 1, 0) == map[0 := Submitted];
    RunConcat(c, Quiet(n), [Begin(0), Snap(0)], [Admit(0, true), Submit(0, true)]);
    RunConcat(c, Quiet(n), [Begin(0), Snap(0)] + [Admit(0, true), Submit(0, true)], last);
    es := [Begin(0), Snap(0)] + [Admit(0, true), Submit(0, true)] + last;
  }

  /** When a default scan tag hides the kickoff tag, even serial calls run past every number. */
  lemma {:induction false} UnboundedWhenHidden(c: Config, n: nat) returns (es: seq<Event>)
    requires !c.visible && c.limit >= 1 && c.width >= 1
    ensures Run(c, Quiet(0), es) == Quiet(n)
  {
    es := [];
    if n > 0 {
      var prior := UnboundedWhenHidden(c, n - 1);
      var last := InvisibleCall(c, n - 1);
      Chain(c, Quiet(0), prior, Quiet(n - 1), last, Quiet(n));
      es := prior + last;
    }
  }

  /** The machine of a service whose kickoff scans carry these tags. */
  function Deployed(limit: nat, width: nat, commit: string, moniker: string, version: string,
                    defaults: map<string, string>): Config
  {
    Config(limit, width, Counted(SubmittedTags(commit, moniker, version, defaults), moniker))
  }

  /** The bound holds in every run exactly when no default scan tag renames the kickoff tag. */
  lemma BoundedIffVisible(limit: nat, width: nat, commit: string, moniker: string, version: string,
                          defaults: map<string, string>)
    requires limit >= 1 && width >= 1
    ensures (forall es :: Run(Deployed(limit, width, commit, moniker, version, defaults), EMPTY, es).running
                          <= limit - 1 + width)
       <==> Visible(moniker, defaults)
  {
    var c := Deployed(limit, width, commit, moniker, version, defaults);
    CountedIffVisible(commit, moniker, version, defaults);
    if c.visible {
      forall es ensures Run(c, EMPTY, es).running <= limit - 1 + width {
        BoundedKickoffs(c, es);
      }
    } else {
      var es := UnboundedWhenHidden(c, limit + width);
      assert EMPTY == Quiet(0);
      assert Run(c, EMPTY, es).running > limit - 1 + width;
    }
  }

  // ---- one call as code

  datatype Verdict = Started | ScanExists | TooManyRunning | ScanFailed

  /**
   What the scan workflow gives back. A delegated or skipped scan has no inspector to read; starting the
   feedback can raise when the scan has already been submitted.
   */
  datatype Scan = Inspector(scanId: string) | NoInspector | RaisesBefore | RaisesAfter

  predicate Submits(scan: Scan)
  {
    scan.Inspector? || scan == RaisesAfter
  }

  /** What the services answer during one call. */
  datatype Answers = Answers(running: seq<string>, onBranch: bool, completed: nat, scan: Scan)

  /** The events of one call that is not interrupted. */
  function OneCall(k: nat, free: bool, succeeds: bool): seq<Event>
  {
    [Begin(k), Snap(k), Admit(k, free), Submit(k, succeeds), Return(k)]
  }

  function Seen(c: Config, s: State): nat
  {
    if c.visible then s.running else 0
  }

  lemma Five(c: Config, s: State, k: nat, free: bool, succeeds: bool)
    ensures Run(c, s, OneCall(k, free, succeeds))
         == Apply(c, Apply(c, Apply(c, Apply(c, Apply(c, s, Begin(k)), Snap(k)),
                            Admit(k, free)), Submit(k, succeeds)), Return(k))
  {
    var es := OneCall(k, free, succeeds);
    assert es[..4][..3] == es[..3] && es[..3][..2] == es[..2] && es[..2][..1] == es[..1] && es[..1][..0] == [];
    assert Run(c, s, es[..1]) == Apply(c, s, es[0]);
    assert Run(c, s, es[..2]) == Apply(c, Run(c, s, es[..1]), es[1]);
    assert Run(c, s, es[..3]) == Apply(c, Run(c, s, es[..2]), es[2]);
    assert Run(c, s, es[..4]) == Apply(c, Run(c, s, es[..3]), es[3]);
  }

  lemma SnapshotTaken(c: Config, s: State, k: nat)
    requires k !in s.calls && |s.calls| < c.width
    ensures Apply(c, Apply(c, s, Begin(k)), Snap(k)) == With(s, k, Snapshot(Seen(c, s)))
  {
    WithTwice(s, k, Begun, Snapshot(Seen(c, s)));
  }

  /** The state with one more call in some phase. */
  function With(s: State, k: nat, p: Phase): State
  {
    s.(calls := s.calls[k := p])
  }

  lemma WithTwice(s: State, k: nat, p: Phase, q: Phase)
    ensures With(With(s, k, p), k, q) == With(s, k, q)
  {
    assert s.calls[k := p][k := q] == s.calls[k := q];
  }

  lemma WithGone(s: State, k: nat, p: Phase)
    requires k !in s.calls
    ensures With(s, k, p).(calls := With(s, k, p).calls - {k}) == s
  {
    assert s.calls[k := p] - {k} == s.calls;
  }

  lemma Admission(c: Config, s: State, k: nat, seen: nat, free: bool)
    requires k !in s.calls
    ensures Apply(c, With(s, k, Snapshot(seen)), Admit(k, free))
         == if seen < c.limit && free then With(s, k, Admitted) else s
  {
    WithTwice(s, k, Snapshot(seen), Admitted);
    WithGone(s, k, Snapshot(seen));
  }

  lemma Submission(c: Config, s: State, k: nat, succeeds: bool)
    requires k !in s.calls
    ensures Apply(c, Apply(c, With(s, k, Admitted), Submit(k, succeeds)), Return(k))
         == if succeeds then s.(running := s.running + 1) else s
  {
    WithTwice(s, k, Admitted, Submitted);
    WithGone(s, k, Admitted);
    WithGone(s.(running := s.running + 1), k, Submitted);
  }

  lemma Refused(c: Config, s: State, k: nat, succeeds: bool)
    requires k !in s.calls
    ensures Apply(c, Apply(c, s, Submit(k, succeeds)), Return(k)) == s
  {
  }

  /** An uninterrupted call adds one running scan exactly when it is admitted and its submission succeeds. */
  lemma OneCallRuns(c: Config, s: State, k: nat, free: bool, succeeds: bool)
    requires k !in s.calls && |s.calls| < c.width
    ensures Run(c, s, OneCall(k, free, succeeds))
         == if Seen(c, s) < c.limit && free && succeeds then s.(running := s.running + 1) else s
  {
    Five(c, s, k, free, succeeds);
    SnapshotTaken(c, s, k);
    Admission(c, s, k, Seen(c, s), free);
    Submission(c, s, k, succeeds);
    Refused(c, s, k, succeeds);
  }

  class KickoffOrchestrator {
    const c: Config
    var runningScans: seq<string>
    var startedScan: Option<string>
    ghost var server: State // the machine the calls share

    constructor (c: Config, ghost server: State)
      ensures this.c == c && this.server == server && runningScans == [] && startedScan == None
    {
      this.c, this.server, runningScans, startedScan := c, server, [], None;
    }

    /**
     execute: one call is a run of the machine. It leaves the calls in flight as they were and adds a running
     scan exactly when the call is admitted and its scan submitted. It reports a start exactly when moreover
     starting the feedback did not raise.
     */
    method Execute(k: nat, answers: Answers) returns (v: Verdict, ghost trace: seq<Event>)
      requires k !in server.calls && |server.calls| < c.width
      requires |answers.running| == Seen(c, server)
      modifies this
      ensures server == Run(c, old(server), trace)
      ensures var admitted := !answers.onBranch && Seen(c, old(server)) < c.limit && answers.completed == 0;
        && server == old(server).(running := old(server).running
             + if admitted && (answers.scan.Inspector? || answers.scan == RaisesAfter) then 1 else 0)
        && (v == Started <==> admitted && answers.scan.Inspector?)
        && (v == ScanFailed <==> admitted && !answers.scan.Inspector?)
      ensures v == Started ==> startedScan == Some(answers.scan.scanId)
      ensures v != Started ==> startedScan == old(startedScan)
      ensures v == TooManyRunning <==> !answers.onBranch && Seen(c, old(server)) >= c.limit
      ensures runningScans == answers.running
    {
      ghost var free := !answers.onBranch && answers.completed == 0;
      trace := OneCall(k, free, Submits(answers.scan));
      OneCallRuns(c, server, k, free, Submits(answers.scan));
      server := Run(c, server, trace);
      runningScans := answers.running;
      if answers.onBranch {
        return ScanExists, trace;
      }
      if |runningScans| >= c.limit {
        return TooManyRunning, trace;
      }
      if answers.completed >= 1 {
        return ScanExists, trace;
      }
      if !answers.scan.Inspector? {
        return ScanFailed, trace;
      }
      startedScan := Some(answers.scan.scanId);
      return Started, trace;
    }
  }
}
