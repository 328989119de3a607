/**
 The exchanges, queues and bindings declared by the broker set-up, and which queues a published or
 dead-lettered message reaches through them. Fanout is section 3.1.3.2 of the AMQP 0-9-1 specification.
 */
module Topology {
  import opened Text
  import opened Topics
  import opened Names
  import opened Options

  datatype Exchange =
    | ScanIn | ScanInLegacy
    | ScanAwait | ScanAwaitLegacy
    | ScanAnnotate | ScanFeedback | SarifWork
    | PollingDelivery | PollingDeliveryLegacy
    | ResolverScanIn | ResolverDlx

  datatype Queue =
    | AwaitedScans | AwaitedScansLegacy
    | PollingScans | PollingScansLegacy
    | PrFeedback | PrAnnotating | GenerateSarif
    | ResolverTimeout | ResolverFinished
    | ResolverRequests(name: string)

  datatype ExchangeKind = Fanout | Topic

  datatype Destination = ToExchange(exchange: Exchange) | ToQueue(queue: Queue)
  datatype Binding = Binding(source: Exchange, key: BindingKey, dest: Destination)

  /** What one service contributes to the set-up: the tags its resolver service allows. */
  datatype Service = Service(moniker: string, agentTags: seq<string>)

  // ---- the declared graph, as a value

  function KindOf(e: Exchange): ExchangeKind
  {
    if e == ScanIn || e == ScanInLegacy then Fanout else Topic
  }

  function DeadLetterExchange(q: Queue): Option<Exchange>
  {
    match q
    case AwaitedScans => Some(PollingDelivery)
    case AwaitedScansLegacy => Some(PollingDeliveryLegacy)
    case ResolverRequests(_) => Some(ResolverDlx)
    case _ => None
  }

  const SCAN_BINDINGS: set<Binding> := {
    Binding(ScanInLegacy, Unused, ToExchange(ScanAwaitLegacy)),
    Binding(ScanIn, Unused, ToExchange(ScanAwait)),
    Binding(ScanInLegacy, Unused, ToExchange(ScanFeedback)),
    Binding(ScanIn, Unused, ToExchange(ScanFeedback)),
    Binding(ScanIn, Unused, ToExchange(SarifWork)),
    Binding(ScanInLegacy, Unused, ToExchange(ScanAnnotate)),
    Binding(ScanIn, Unused, ToExchange(ScanAnnotate)),
    Binding(ScanAwaitLegacy, PollBindingLegacy, ToQueue(AwaitedScansLegacy)),
    Binding(ScanAwait, PollBinding, ToQueue(AwaitedScans)),
    Binding(PollingDeliveryLegacy, PollBindingLegacy, ToQueue(PollingScansLegacy)),
    Binding(PollingDelivery, PollBinding, ToQueue(PollingScans)),
    Binding(ScanFeedback, FeedbackPr, ToQueue(PrFeedback)),
    Binding(SarifWork, GenSarif, ToQueue(GenerateSarif)),
    Binding(ScanAnnotate, AnnotatePr, ToQueue(PrAnnotating))
  }

  const RESOLVER_BINDINGS: set<Binding> := {
    Binding(ResolverDlx, DeadLetter, ToQueue(ResolverTimeout)),
    Binding(ResolverScanIn, ScanComplete, ToQueue(ResolverFinished))
  }

  function TagBinding(tag: string): Binding
    requires ValidTag(tag)
  {
    ValidTagIsAscii(tag);
    Binding(ResolverScanIn, ForTag(tag), ToQueue(ResolverRequests(QueueNameForTag(tag))))
  }

  predicate ValidTags(tags: set<string>)
  {
    forall t :: t in tags ==> ValidTag(t)
  }

  function Bindings(tags: set<string>): set<Binding>
    requires ValidTags(tags)
  {
    SCAN_BINDINGS + RESOLVER_BINDINGS + set t | t in tags :: TagBinding(t)
  }

  // ---- routing: a message follows admitting bindings from exchange to exchange until a queue

  predicate Admits(b: Binding, key: string)
  {
    KindOf(b.source) == Fanout || Matches(KeyText(b.key), key)
  }

  function Admitting(key: string): Binding -> bool
  {
    (b: Binding) => Admits(b, key)
  }

  ghost predicate Route(bindings: set<Binding>, admits: Binding -> bool, from: Exchange, path: seq<Binding>, q: Queue)
    decreases |path|
  {
    && path != []
    && path[0].source == from
    && path[0] in bindings
    && admits(path[0])
    && match path[0].dest
       case ToQueue(r) => r == q && |path| == 1
       case ToExchange(e) => Route(bindings, admits, e, path[1..], q)
  }

  ghost predicate ReachesBy(bindings: set<Binding>, admits: Binding -> bool, from: Exchange, q: Queue)
  {
    exists path :: Route(bindings, admits, from, path, q)
  }

  /** A message published to `from` under `key` is put in queue `q`. */
  ghost predicate Reaches(bindings: set<Binding>, from: Exchange, key: string, q: Queue)
  {
    ReachesBy(bindings, Admitting(key), from, q)
  }

  ghost predicate FirstHop(bindings: set<Binding>, admits: Binding -> bool, from: Exchange, q: Queue, b: Binding)
  {
    && b in bindings
    && b.source == from
    && admits(b)
    && (b.dest == ToQueue(q) || (b.dest.ToExchange? && ReachesBy(bindings, admits, b.dest.exchange, q)))
  }

  /** One hop of routing: either a binding to the queue itself or a binding to an exchange that reaches it. */
  lemma ReachesOneHop(bindings: set<Binding>, admits: Binding -> bool, from: Exchange, q: Queue)
    ensures ReachesBy(bindings, admits, from, q) <==> exists b :: FirstHop(bindings, admits, from, q, b)
  {
    if path: seq<Binding> :| Route(bindings, admits, from, path, q) {
      if path[0].dest.ToExchange? {
        assert Route(bindings, admits, path[0].dest.exchange, path[1..], q);
      }
      assert FirstHop(bindings, admits, from, q, path[0]);
    }
    if b :| FirstHop(bindings, admits, from, q, b) {
      RouteFrom(bindings, admits, from, q, b);
    }
  }

  lemma RouteFrom(bindings: set<Binding>, admits: Binding -> bool, from: Exchange, q: Queue, b: Binding)
    requires FirstHop(bindings, admits, from, q, b)
    ensures ReachesBy(bindings, admits, from, q)
  {
    if b.dest == ToQueue(q) {
      assert Route(bindings, admits, from, [b], q);
    } else {
      var rest :| Route(bindings, admits, b.dest.exchange, rest, q);
      var path := [b] + rest;
      assert path[1..] == rest;
      assert Route(bindings, admits, from, path, q);
    }
  }

  const AWAIT_LEAF := Binding(ScanAwait, PollBinding, ToQueue(AwaitedScans))
  const FEEDBACK_LEAF := Binding(ScanFeedback, FeedbackPr, ToQueue(PrFeedback))
  const SARIF_LEAF := Binding(SarifWork, GenSarif, ToQueue(GenerateSarif))
  const ANNOTATE_LEAF := Binding(ScanAnnotate, AnnotatePr, ToQueue(PrAnnotating))
  const FINISHED_LEAF := Binding(ResolverScanIn, ScanComplete, ToQueue(ResolverFinished))

  /** The single binding of each topic exchange other than the resolver's. */
  function Leaf(e: Exchange): (b: Binding)
    requires KindOf(e) == Topic && e != ResolverScanIn
    ensures b.source == e && b.dest.ToQueue?
  {
    match e
    case ScanAwait => AWAIT_LEAF
    case ScanAwaitLegacy => Binding(ScanAwaitLegacy, PollBindingLegacy, ToQueue(AwaitedScansLegacy))
    case ScanAnnotate => ANNOTATE_LEAF
    case ScanFeedback => FEEDBACK_LEAF
    case SarifWork => SARIF_LEAF
    case PollingDelivery => Binding(PollingDelivery, PollBinding, ToQueue(PollingScans))
    case PollingDeliveryLegacy => Binding(PollingDeliveryLegacy, PollBindingLegacy, ToQueue(PollingScansLegacy))
    case ResolverDlx => Binding(ResolverDlx, DeadLetter, ToQueue(ResolverTimeout))
  }

  lemma LeafIsOnly(tags: set<string>, e: Exchange, b: Binding)
    requires ValidTags(tags) && KindOf(e) == Topic && e != ResolverScanIn && b.source == e
    ensures b in Bindings(tags) <==> b == Leaf(e)
  {
  }

  lemma LeafGraph(tags: set<string>, admits: Binding -> bool, e: Exchange, q: Queue)
    requires ValidTags(tags) && KindOf(e) == Topic && e != ResolverScanIn
    ensures ReachesBy(Bindings(tags), admits, e, q) <==> q == Leaf(e).dest.queue && admits(Leaf(e))
  {
    var bs, only := Bindings(tags), Leaf(e);
    ReachesOneHop(bs, admits, e, q);
    LeafIsOnly(tags, e, only);
    forall b | FirstHop(bs, admits, e, q, b)
      ensures b == only
    {
      LeafIsOnly(tags, e, b);
    }
    assert FirstHop(bs, admits, e, q, only) <==> q == only.dest.queue && admits(only);
  }

  const SCAN_IN_TARGETS := {ScanAwait, ScanFeedback, SarifWork, ScanAnnotate}
  const LEGACY_TARGETS := {ScanAwaitLegacy, ScanFeedback, ScanAnnotate}

  /** Where a fanout exchange leads. */
  function Targets(source: Exchange): (r: set<Exchange>)
    requires KindOf(source) == Fanout
    ensures forall e :: e in r ==> KindOf(e) == Topic && e != ResolverScanIn
  {
    if source == ScanIn then SCAN_IN_TARGETS else LEGACY_TARGETS
  }

  lemma FanHop(tags: set<string>, b: Binding)
    requires ValidTags(tags) && KindOf(b.source) == Fanout
    ensures b in Bindings(tags) <==> b.key == Unused && b.dest.ToExchange? && b.dest.exchange in Targets(b.source)
  {
  }

  lemma FanReachesLeaf(tags: set<string>, admits: Binding -> bool, source: Exchange, e: Exchange, q: Queue)
    requires ValidTags(tags) && KindOf(source) == Fanout
    requires e in Targets(source) && admits(Leaf(e)) && q == Leaf(e).dest.queue
    requires forall b: Binding :: b.source == source ==> admits(b)
    ensures ReachesBy(Bindings(tags), admits, source, q)
  {
    var b := Binding(source, Unused, ToExchange(e));
    FanHop(tags, b);
    LeafGraph(tags, admits, e, q);
    RouteFrom(Bindings(tags), admits, source, q, b);
  }

  lemma FanLeafReached(tags: set<string>, admits: Binding -> bool, source: Exchange, q: Queue) returns (e: Exchange)
    requires ValidTags(tags) && KindOf(source) == Fanout && ReachesBy(Bindings(tags), admits, source, q)
    ensures e in Targets(source) && admits(Leaf(e)) && q == Leaf(e).dest.queue
  {
    var bs := Bindings(tags);
    ReachesOneHop(bs, admits, source, q);
    var b :| FirstHop(bs, admits, source, q, b);
    FanHop(tags, b);
    e := b.dest.exchange;
    LeafGraph(tags, admits, e, q);
  }

  /** A Scan In exchange fans out to its routing exchanges, each with one queue behind it. */
  lemma FanGraph(tags: set<string>, admits: Binding -> bool, source: Exchange, q: Queue)
    requires ValidTags(tags) && KindOf(source) == Fanout
    requires forall b: Binding :: b.source == source ==> admits(b)
    ensures ReachesBy(Bindings(tags), admits, source, q) <==>
      exists e :: e in Targets(source) && admits(Leaf(e)) && q == Leaf(e).dest.queue
  {
    if e :| e in Targets(source) && admits(Leaf(e)) && q == Leaf(e).dest.queue {
      FanReachesLeaf(tags, admits, source, e, q);
    }
    if ReachesBy(Bindings(tags), admits, source, q) {
      var e := FanLeafReached(tags, admits, source, q);
    }
  }

  lemma ResolverHop(tags: set<string>, b: Binding)
    requires ValidTags(tags) && b.source == ResolverScanIn
    ensures b in Bindings(tags) <==> b == FINISHED_LEAF || exists t :: t in tags && b == TagBinding(t)
  {
  }

  /** The resolver exchange leads to the finished queue and to one request queue per tag. */
  lemma ResolverGraph(tags: set<string>, admits: Binding -> bool, q: Queue)
    requires ValidTags(tags)
    ensures ReachesBy(Bindings(tags), admits, ResolverScanIn, q) <==>
      || (q == ResolverFinished && admits(FINISHED_LEAF))
      || exists t :: t in tags && admits(TagBinding(t)) && q == TagBinding(t).dest.queue
  {
    var bs := Bindings(tags);
    ReachesOneHop(bs, admits, ResolverScanIn, q);
    if q == ResolverFinished && admits(FINISHED_LEAF) {
      assert FirstHop(bs, admits, ResolverScanIn, q, FINISHED_LEAF);
    }
    if t :| t in tags && admits(TagBinding(t)) && q == TagBinding(t).dest.queue {
      assert FirstHop(bs, admits, ResolverScanIn, q, TagBinding(t));
    }
    if b :| FirstHop(bs, admits, ResolverScanIn, q, b) {
      ResolverHop(tags, b);
    }
  }

  // ---- the messages this version publishes to the Scan In exchange

  datatype ScanMessage = PrAwait | PrFeedbackMsg | PrAnnotateMsg | PushAwait | PushFeedbackMsg

  function KeyOf(m: ScanMessage, moniker: string): string
  {
    match m
    case PrAwait => PrTopic(Await, PULL_REQUEST, moniker)
    case PrFeedbackMsg => PrTopic(Feedback, PULL_REQUEST, moniker)
    case PrAnnotateMsg => PrTopic(Annotate, PULL_REQUEST, moniker)
    case PushAwait => PushTopic(Await, PUSH_GEN_SARIF, moniker)
    case PushFeedbackMsg => PushTopic(Feedback, PUSH_GEN_SARIF, moniker)
  }

  function QueueFor(m: ScanMessage): Queue
  {
    match m
    case PrAwait => AwaitedScans
    case PrFeedbackMsg => PrFeedback
    case PrAnnotateMsg => PrAnnotating
    case PushAwait => AwaitedScans
    case PushFeedbackMsg => GenerateSarif
  }

  function KeyWords(m: ScanMessage): seq<string>
  {
    match m
    case PrAwait => ["cx", "pr", "await", PULL_REQUEST]
    case PrFeedbackMsg => ["cx", "pr", "feedback", PULL_REQUEST]
    case PrAnnotateMsg => ["cx", "pr", "annotate", PULL_REQUEST]
    case PushAwait => ["cx", "push", "await", PUSH_GEN_SARIF]
    case PushFeedbackMsg => ["cx", "push", "feedback", PUSH_GEN_SARIF]
  }

  lemma KeySplits(m: ScanMessage, moniker: string)
    ensures Split(KeyOf(m, moniker), '.') == KeyWords(m) + Split(moniker, '.')
  {
    var w := KeyWords(m);
    FiveWords(w[0], w[1], w[2], w[3], moniker);
  }

  /** A five-word binding key of the scan exchanges whose last word is `*`. */
  lemma ScanBindingMatches(w0: string, w1: string, w2: string, w3: string, m: ScanMessage, moniker: string)
    requires '.' !in w0 && '.' !in w1 && '.' !in w2 && '.' !in w3
    requires MANY !in [w0, w1, w2, w3]
    ensures Matches(Dot(w0, Dot(w1, Dot(w2, Dot(w3, "*")))), KeyOf(m, moniker)) <==>
      '.' !in moniker && Agrees([w0, w1, w2, w3], KeyWords(m))
  {
    FiveWords(w0, w1, w2, w3, "*");
    SplitPlain("*", '.');
    KeySplits(m, moniker);
    SplitPlain(moniker, '.');
    var p := [w0, w1, w2, w3] + ["*"];
    var k := KeyWords(m) + Split(moniker, '.');
    MatchFixed(p, k);
    if |k| == 5 {
      assert forall i :: 0 <= i < 4 ==> p[i] == [w0, w1, w2, w3][i] && k[i] == KeyWords(m)[i];
      assert p[4] == ONE;
    }
  }

  // Which of the scan bindings match which of the messages.

  lemma PollMatch(m: ScanMessage, moniker: string)
    ensures Matches(KeyText(PollBinding), KeyOf(m, moniker)) <==> '.' !in moniker && QueueFor(m) == AwaitedScans
  {
    ScanBindingMatches("cx", "*", "await", "*", m, moniker);
    PollAgreement(m);
  }

  lemma PollMatchLegacy(m: ScanMessage, moniker: string)
    ensures Matches(KeyText(PollBindingLegacy), KeyOf(m, moniker)) <==> '.' !in moniker && m.PrAwait?
  {
    ScanBindingMatches("cx", "pr", "await", "*", m, moniker);
    PollLegacyAgreement(m);
  }

  lemma FeedbackMatch(m: ScanMessage, moniker: string)
    ensures Matches(KeyText(FeedbackPr), KeyOf(m, moniker)) <==> '.' !in moniker && QueueFor(m) == PrFeedback
  {
    ScanBindingMatches("cx", "pr", "feedback", PULL_REQUEST, m, moniker);
    FeedbackAgreement(m);
  }

  lemma AnnotateMatch(m: ScanMessage, moniker: string)
    ensures Matches(KeyText(AnnotatePr), KeyOf(m, moniker)) <==> '.' !in moniker && QueueFor(m) == PrAnnotating
  {
    ScanBindingMatches("cx", "pr", "annotate", PULL_REQUEST, m, moniker);
    AnnotateAgreement(m);
  }

  lemma SarifMatch(m: ScanMessage, moniker: string)
    ensures Matches(KeyText(GenSarif), KeyOf(m, moniker)) <==> '.' !in moniker && QueueFor(m) == GenerateSarif
  {
    ScanBindingMatches("cx", "push", "feedback", PUSH_GEN_SARIF, m, moniker);
    SarifAgreement(m);
  }

  lemma PollAgreement(m: ScanMessage)
    ensures Agrees(["cx", "*", "await", "*"], KeyWords(m)) <==> m.PrAwait? || m.PushAwait?
  {
    AgreesOnFour("cx", "*", "await", "*", KeyWords(m));
    assert |"await"| != |"feedback"| && |"await"| != |"annotate"|;
  }

  lemma PollLegacyAgreement(m: ScanMessage)
    ensures Agrees(["cx", "pr", "await", "*"], KeyWords(m)) <==> m.PrAwait?
  {
    AgreesOnFour("cx", "pr", "await", "*", KeyWords(m));
    assert |"pr"| != |"push"| && |"await"| != |"feedback"| && |"await"| != |"annotate"|;
  }

  lemma FeedbackAgreement(m: ScanMessage)
    ensures Agrees(["cx", "pr", "feedback", PULL_REQUEST], KeyWords(m)) <==> m.PrFeedbackMsg?
  {
    AgreesOnFour("cx", "pr", "feedback", PULL_REQUEST, KeyWords(m));
    assert "feedback"[0] != "annotate"[0];
    assert |"pr"| != |"push"| && |"await"| != |"feedback"|;
  }

  lemma AnnotateAgreement(m: ScanMessage)
    ensures Agrees(["cx", "pr", "annotate", PULL_REQUEST], KeyWords(m)) <==> m.PrAnnotateMsg?
  {
    AgreesOnFour("cx", "pr", "annotate", PULL_REQUEST, KeyWords(m));
    assert "feedback"[0] != "annotate"[0];
    assert |"pr"| != |"push"| && |"await"| != |"annotate"|;
  }

  lemma SarifAgreement(m: ScanMessage)
    ensures Agrees(["cx", "push", "feedback", PUSH_GEN_SARIF], KeyWords(m)) <==> m.PushFeedbackMsg?
  {
    AgreesOnFour("cx", "push", "feedback", PUSH_GEN_SARIF, KeyWords(m));
    assert |"pr"| != |"push"| && |"await"| != |"feedback"|;
  }

  lemma AgreesOnFour(p0: string, p1: string, p2: string, p3: string, k: seq<string>)
    requires |k| == 4
    ensures Agrees([p0, p1, p2, p3], k) <==>
      (p0 == ONE || p0 == k[0]) && (p1 == ONE || p1 == k[1]) && (p2 == ONE || p2 == k[2]) && (p3 == ONE || p3 == k[3])
  {
    var p := [p0, p1, p2, p3];
    assert p[0] == p0 && p[1] == p1 && p[2] == p2 && p[3] == p3;
  }

  /** A topic binding admits exactly what its key matches. */
  lemma TopicAdmission(key: string, b: Binding, pattern: string)
    requires KindOf(b.source) == Topic && KeyText(b.key) == pattern
    ensures Admitting(key)(b) <==> Matches(pattern, key)
  {
  }

  lemma ScanAdmission(m: ScanMessage, moniker: string, e: Exchange)
    requires e in SCAN_IN_TARGETS
    ensures Admitting(KeyOf(m, moniker))(Leaf(e)) <==> '.' !in moniker && QueueFor(m) == Leaf(e).dest.queue
  {
    var key, pattern := KeyOf(m, moniker), KeyText(Leaf(e).key);
    TopicAdmission(key, Leaf(e), pattern);
    ScanMatch(m, moniker, e, key, pattern);
  }

  lemma ScanMatch(m: ScanMessage, moniker: string, e: Exchange, key: string, pattern: string)
    requires e in SCAN_IN_TARGETS && key == KeyOf(m, moniker) && pattern == KeyText(Leaf(e).key)
    ensures Matches(pattern, key) <==> '.' !in moniker && QueueFor(m) == Leaf(e).dest.queue
  {
    match e
    case ScanAwait => PollMatch(m, moniker);
    case ScanFeedback => FeedbackMatch(m, moniker);
    case SarifWork => SarifMatch(m, moniker);
    case ScanAnnotate => AnnotateMatch(m, moniker);
  }

  lemma FanoutAdmission(key: string, b: Binding)
    requires KindOf(b.source) == Fanout
    ensures Admitting(key)(b)
  {
  }

  lemma ScanInByAdmission(tags: set<string>, admits: Binding -> bool, m: ScanMessage, plain: bool, q: Queue)
    requires ValidTags(tags)
    requires forall b: Binding :: b.source == ScanIn ==> admits(b)
    requires forall e :: e in SCAN_IN_TARGETS ==> (admits(Leaf(e)) <==> plain && QueueFor(m) == Leaf(e).dest.queue)
    ensures ReachesBy(Bindings(tags), admits, ScanIn, q) <==> plain && q == QueueFor(m)
  {
    FanGraph(tags, admits, ScanIn, q);
    var e := match m
             case PrAwait => ScanAwait
             case PushAwait => ScanAwait
             case PrFeedbackMsg => ScanFeedback
             case PrAnnotateMsg => ScanAnnotate
             case PushFeedbackMsg => SarifWork;
    assert e in SCAN_IN_TARGETS && Leaf(e).dest.queue == QueueFor(m);
  }

  /**
   Every message published to Scan In reaches exactly the queue it was made for when its moniker has no
   dot, and no queue at all when it has one.
   */
  lemma ScanInReachesExactly(tags: set<string>, m: ScanMessage, moniker: string, q: Queue)
    requires ValidTags(tags)
    ensures Reaches(Bindings(tags), ScanIn, KeyOf(m, moniker), q) <==> '.' !in moniker && q == QueueFor(m)
  {
    var admits := Admitting(KeyOf(m, moniker));
    forall b: Binding | b.source == ScanIn
      ensures admits(b)
    {
      FanoutAdmission(KeyOf(m, moniker), b);
    }
    forall e | e in SCAN_IN_TARGETS
      ensures admits(Leaf(e)) <==> '.' !in moniker && QueueFor(m) == Leaf(e).dest.queue
    {
      ScanAdmission(m, moniker, e);
    }
    ScanInByAdmission(tags, admits, m, '.' !in moniker, q);
  }

  /** What the legacy entry leads to: pull-request messages only, awaited scans in the legacy queue. */
  function LegacyQueueFor(m: ScanMessage): Option<Queue>
  {
    match m
    case PrAwait => Some(AwaitedScansLegacy)
    case PrFeedbackMsg => Some(PrFeedback)
    case PrAnnotateMsg => Some(PrAnnotating)
    case PushAwait => None
    case PushFeedbackMsg => None
  }

  lemma LegacyScanAdmission(m: ScanMessage, moniker: string, e: Exchange)
    requires e in LEGACY_TARGETS
    ensures Admitting(KeyOf(m, moniker))(Leaf(e)) <==>
      '.' !in moniker && LegacyQueueFor(m) == Some(Leaf(e).dest.queue)
  {
    if e == ScanAwaitLegacy {
      TopicAdmission(KeyOf(m, moniker), Leaf(ScanAwaitLegacy), KeyText(PollBindingLegacy));
      PollMatchLegacy(m, moniker);
    } else {
      ScanAdmission(m, moniker, e);
    }
  }

  lemma LegacyByAdmission(tags: set<string>, admits: Binding -> bool, m: ScanMessage, plain: bool, q: Queue)
    requires ValidTags(tags)
    requires forall b: Binding :: b.source == ScanInLegacy ==> admits(b)
    requires forall e :: e in LEGACY_TARGETS ==>
      (admits(Leaf(e)) <==> plain && LegacyQueueFor(m) == Some(Leaf(e).dest.queue))
    ensures ReachesBy(Bindings(tags), admits, ScanInLegacy, q) <==> plain && LegacyQueueFor(m) == Some(q)
  {
    FanGraph(tags, admits, ScanInLegacy, q);
    var e := match m
             case PrAwait => ScanAwaitLegacy
             case PushAwait => ScanAwaitLegacy
             case PrFeedbackMsg => ScanFeedback
             case PrAnnotateMsg => ScanAnnotate
             case PushFeedbackMsg => ScanFeedback;
    assert e in LEGACY_TARGETS;
  }

  /**
   A message an earlier version still publishes to the legacy Scan In exchange reaches exactly the queue its
   kind had there: awaited pull-request scans the legacy queue, feedback and annotations the common ones.
   */
  lemma LegacyInReachesExactly(tags: set<string>, m: ScanMessage, moniker: string, q: Queue)
    requires ValidTags(tags)
    ensures Reaches(Bindings(tags), ScanInLegacy, KeyOf(m, moniker), q) <==>
      '.' !in moniker && LegacyQueueFor(m) == Some(q)
  {
    var admits := Admitting(KeyOf(m, moniker));
    forall b: Binding | b.source == ScanInLegacy
      ensures admits(b)
    {
      FanoutAdmission(KeyOf(m, moniker), b);
    }
    forall e | e in LEGACY_TARGETS
      ensures admits(Leaf(e)) <==> '.' !in moniker && LegacyQueueFor(m) == Some(Leaf(e).dest.queue)
    {
      LegacyScanAdmission(m, moniker, e);
    }
    LegacyByAdmission(tags, admits, m, '.' !in moniker, q);
  }

  /** An await message that expires keeps its key and reaches exactly the polling queue of its topology. */
  lemma DeadLetterReachesPolling(tags: set<string>, m: ScanMessage, moniker: string, q: Queue)
    requires ValidTags(tags) && QueueFor(m) == AwaitedScans
    ensures DeadLetterExchange(AwaitedScans).Some?
    ensures Reaches(Bindings(tags), DeadLetterExchange(AwaitedScans).value, KeyOf(m, moniker), q) <==>
      '.' !in moniker && q == PollingScans
    ensures DeadLetterExchange(AwaitedScansLegacy).Some?
    ensures Reaches(Bindings(tags), DeadLetterExchange(AwaitedScansLegacy).value, KeyOf(m, moniker), q) <==>
      '.' !in moniker && m.PrAwait? && q == PollingScansLegacy
  {
    PollingReached(tags, m, moniker, q);
    LegacyReached(tags, m, moniker, q);
  }

  lemma PollAdmission(m: ScanMessage, moniker: string)
    ensures Admitting(KeyOf(m, moniker))(Leaf(PollingDelivery)) <==> '.' !in moniker && QueueFor(m) == AwaitedScans
  {
    TopicAdmission(KeyOf(m, moniker), Leaf(PollingDelivery), KeyText(PollBinding));
    PollMatch(m, moniker);
  }

  lemma LegacyAdmission(m: ScanMessage, moniker: string)
    ensures Admitting(KeyOf(m, moniker))(Leaf(PollingDeliveryLegacy)) <==> '.' !in moniker && m.PrAwait?
  {
    TopicAdmission(KeyOf(m, moniker), Leaf(PollingDeliveryLegacy), KeyText(PollBindingLegacy));
    PollMatchLegacy(m, moniker);
  }

  lemma LeafReachedIff(tags: set<string>, key: string, e: Exchange, hit: bool, q: Queue)
    requires ValidTags(tags) && KindOf(e) == Topic && e != ResolverScanIn && (Admitting(key)(Leaf(e)) <==> hit)
    ensures Reaches(Bindings(tags), e, key, q) <==> hit && q == Leaf(e).dest.queue
  {
    LeafGraph(tags, Admitting(key), e, q);
  }

  lemma PollingReached(tags: set<string>, m: ScanMessage, moniker: string, q: Queue)
    requires ValidTags(tags)
    ensures Reaches(Bindings(tags), PollingDelivery, KeyOf(m, moniker), q) <==>
      '.' !in moniker && QueueFor(m) == AwaitedScans && q == PollingScans
  {
    PollAdmission(m, moniker);
    LeafReachedIff(tags, KeyOf(m, moniker), PollingDelivery, '.' !in moniker && QueueFor(m) == AwaitedScans, q);
  }

  lemma LegacyReached(tags: set<string>, m: ScanMessage, moniker: string, q: Queue)
    requires ValidTags(tags)
    ensures Reaches(Bindings(tags), PollingDeliveryLegacy, KeyOf(m, moniker), q) <==>
      '.' !in moniker && m.PrAwait? && q == PollingScansLegacy
  {
    LegacyAdmission(m, moniker);
    LeafReachedIff(tags, KeyOf(m, moniker), PollingDeliveryLegacy, '.' !in moniker && m.PrAwait?, q);
  }

  // ---- resolver keys

  lemma ResolverWords(op: string, rest: string)
    requires '.' !in op
    ensures Split(ResolverKey(op, rest), '.') == ["cx", "res", "exec", "sca-resolver", op] + Split(rest, '.')
  {
    DotWords(op, rest);
    FiveWords("cx", "res", "exec", "sca-resolver", Dot(op, rest));
  }

  lemma TopicWords(t: string, moniker: string)
    requires ValidTag(t)
    ensures Split(TopicForTag(t, moniker), '.') == ["cx", "res", "exec", "sca-resolver", RUN_SCAN] + [t] +
      Split(moniker, '.')
  {
    ValidTagIsAscii(t);
    ResolverWords(RUN_SCAN, Dot(t, moniker));
    DotWords(t, moniker);
  }

  /** Behind a common stub the first word decides. */
  lemma StubThenWord(stub: seq<string>, u: string, t: string, rest: seq<string>)
    requires MANY !in stub && u != MANY && u != ONE
    ensures MatchWords(stub + [u] + [MANY], stub + [t] + rest) <==> t == u
  {
    var p, k := stub + [u], stub + [t] + rest;
    MatchPrefix(p, k);
    assert p[|stub|] == u && k[|stub|] == t;
    assert forall i :: 0 <= i < |stub| ==> p[i] == stub[i] == k[i];
  }

  /** The topic made for one tag matches the binding key made for another iff the tags are equal. */
  lemma TagIsolation(t: string, u: string, moniker: string)
    requires ValidTag(t) && ValidTag(u)
    ensures Matches(RouteKeyForTag(u), TopicForTag(t, moniker)) <==> t == u
  {
    var stub := ["cx", "res", "exec", "sca-resolver", RUN_SCAN];
    TopicWords(t, moniker);
    RouteKeyWords(u);
    RouteStubPlain(u);
    NotWildcard(u);
    assert MANY !in stub by {
      assert forall w :: w in stub ==> w in stub + [u];
      assert stub + [u] == ["cx", "res", "exec", "sca-resolver", RUN_SCAN, u];
    }
    StubThenWord(stub, u, t, Split(moniker, '.'));
    assert ["cx", "res", "exec", "sca-resolver", RUN_SCAN, u] == stub + [u];
  }

  lemma NotWildcard(u: string)
    requires ValidTag(u)
    ensures u != MANY && u != ONE
  {
    if u != "" {
      assert TagChar(u[0]);
    }
  }

  const COMPLETE_STUB := ["cx", "res", "exec", "sca-resolver", SCAN_COMPLETE]

  lemma CompleteBindingWords(k: seq<string>)
    ensures MatchWords(Split(KeyText(ScanComplete), '.'), k) <==> Agrees(COMPLETE_STUB, k)
  {
    ResolverWords(SCAN_COMPLETE, "#");
    SplitPlain("#", '.');
    MatchPrefix(COMPLETE_STUB, k);
  }

  lemma DeadLetterWords(k: seq<string>)
    ensures MatchWords(Split(KeyText(DeadLetter), '.'), k) <==> Agrees(["cx", "res"], k)
  {
    DotWords("res", "#");
    DotWords("cx", Dot("res", "#"));
    SplitPlain("#", '.');
    MatchPrefix(["cx", "res"], k);
  }

  /** No key for running a scan matches the binding of the finished queue. */
  lemma RequestMissesFinished(rest: string)
    ensures !Matches(KeyText(ScanComplete), ResolverKey(RUN_SCAN, rest))
  {
    var k := Split(ResolverKey(RUN_SCAN, rest), '.');
    ResolverWords(RUN_SCAN, rest);
    CompleteBindingWords(k);
    assert k[4] == RUN_SCAN && COMPLETE_STUB[4] == SCAN_COMPLETE && |RUN_SCAN| != |SCAN_COMPLETE|;
  }

  /** Every resolver key matches the dead-letter binding. */
  lemma DeadLetterMatches(op: string, rest: string)
    requires '.' !in op
    ensures Matches(KeyText(DeadLetter), ResolverKey(op, rest))
  {
    ResolverWords(op, rest);
    DeadLetterWords(Split(ResolverKey(op, rest), '.'));
  }

  /** A request reaches exactly the request queue of its own tag, and no queue if the tag was never declared. */
  lemma RequestReachesExactly(tags: set<string>, t: string, moniker: string, q: Queue)
    requires ValidTags(tags) && ValidTag(t)
    ensures Ascii(t)
    ensures Reaches(Bindings(tags), ResolverScanIn, TopicForTag(t, moniker), q) <==>
      t in tags && q == ResolverRequests(QueueNameForTag(t))
  {
    ValidTagIsAscii(t);
    var admits := Admitting(TopicForTag(t, moniker));
    FinishedAdmission(t, moniker);
    forall u | u in tags
      ensures admits(TagBinding(u)) <==> u == t
    {
      TagAdmission(t, u, moniker);
    }
    ResolverByAdmission(tags, admits, {t}, false, q);
    assert forall u :: u in tags && u in {t} ==> TagBinding(u).dest.queue == ResolverRequests(QueueNameForTag(t));
  }

  lemma FinishedAdmission(t: string, moniker: string)
    requires ValidTag(t)
    ensures !Admitting(TopicForTag(t, moniker))(FINISHED_LEAF)
  {
    RequestMissesFinished(Dot(t, moniker));
  }

  lemma TagAdmission(t: string, u: string, moniker: string)
    requires ValidTag(t) && ValidTag(u)
    ensures Admitting(TopicForTag(t, moniker))(TagBinding(u)) <==> t == u
  {
    TagBindingAdmits(TopicForTag(t, moniker), u);
    TagIsolation(t, u, moniker);
  }

  lemma TagBindingAdmits(key: string, u: string)
    requires ValidTag(u)
    ensures Admitting(key)(TagBinding(u)) <==> Matches(RouteKeyForTag(u), key)
  {
    TopicAdmission(key, TagBinding(u), RouteKeyForTag(u));
  }

  /** What the resolver exchange does once it is known which tags' bindings admit the message. */
  lemma ResolverByAdmission(tags: set<string>, admits: Binding -> bool, admitted: set<string>, finished: bool, q: Queue)
    requires ValidTags(tags)
    requires forall u :: u in tags ==> (admits(TagBinding(u)) <==> u in admitted)
    requires admits(FINISHED_LEAF) <==> finished
    ensures ReachesBy(Bindings(tags), admits, ResolverScanIn, q) <==>
      || (finished && q == ResolverFinished)
      || exists u :: u in tags && u in admitted && q == TagBinding(u).dest.queue
  {
    ResolverGraph(tags, admits, q);
  }

  lemma DlxAdmits(key: string)
    requires Matches(KeyText(DeadLetter), key)
    ensures Admitting(key)(Leaf(ResolverDlx))
  {
    var b := Leaf(ResolverDlx);
    assert b.key == DeadLetter && KindOf(b.source) == Topic;
    TopicAdmission(key, b, KeyText(b.key));
  }

  lemma DeadKeyAdmission(op: string, rest: string)
    requires '.' !in op
    ensures Admitting(ResolverKey(op, rest))(Leaf(ResolverDlx))
  {
    DeadLetterMatches(op, rest);
    DlxAdmits(ResolverKey(op, rest));
  }

  lemma DeadKeyReachesTimeout(tags: set<string>, op: string, rest: string, q: Queue)
    requires ValidTags(tags) && '.' !in op
    ensures Reaches(Bindings(tags), ResolverDlx, ResolverKey(op, rest), q) <==> q == ResolverTimeout
  {
    DeadKeyAdmission(op, rest);
    LeafReachedIff(tags, ResolverKey(op, rest), ResolverDlx, true, q);
  }

  /** A request that expires or is rejected keeps its key and reaches exactly the timeout queue. */
  lemma DeadRequestReachesTimeout(tags: set<string>, t: string, moniker: string, q: Queue)
    requires ValidTags(tags) && ValidTag(t)
    ensures Ascii(t) && DeadLetterExchange(ResolverRequests(QueueNameForTag(t))) == Some(ResolverDlx)
    ensures Reaches(Bindings(tags), ResolverDlx, TopicForTag(t, moniker), q) <==> q == ResolverTimeout
  {
    ValidTagIsAscii(t);
    DeadKeyReachesTimeout(tags, RUN_SCAN, Dot(t, moniker), q);
  }

  /** A result under an agent's key or under the timeout handler's key reaches exactly the finished queue. */
  lemma ResultReachesFinished(tags: set<string>, key: string, agentTag: string, q: Queue)
    requires ValidTags(tags)
    requires key == RESULT_STUB || key == ResultKey(agentTag)
    ensures Reaches(Bindings(tags), ResolverScanIn, key, q) <==> q == ResolverFinished
  {
    var admits := Admitting(key);
    ResultAdmission(key, agentTag);
    forall u | u in tags
      ensures !admits(TagBinding(u))
    {
      ResultMissesRequestQueue(u, key, agentTag);
    }
    ResolverByAdmission(tags, admits, {}, true, q);
  }

  lemma ResultAdmission(key: string, agentTag: string)
    requires key == RESULT_STUB || key == ResultKey(agentTag)
    ensures Admitting(key)(FINISHED_LEAF)
  {
    var pattern := KeyText(ScanComplete);
    TopicAdmission(key, FINISHED_LEAF, pattern);
    var k := ResultKeyWords(key, agentTag);
    CompleteBindingWords(k);
    assert forall i :: 0 <= i < 5 ==> COMPLETE_STUB[i] == k[..5][i];
  }

  lemma ResultKeyWords(key: string, agentTag: string) returns (k: seq<string>)
    requires key == RESULT_STUB || key == ResultKey(agentTag)
    ensures k == Split(key, '.') && |k| >= 5 && k[..5] == COMPLETE_STUB
  {
    k := Split(key, '.');
    if key == RESULT_STUB {
      FiveWords("cx", "res", "exec", "sca-resolver", SCAN_COMPLETE);
      SplitPlain(SCAN_COMPLETE, '.');
    } else {
      ResolverWords(SCAN_COMPLETE, agentTag);
    }
  }

  lemma ResultMissesRequestQueue(u: string, key: string, agentTag: string)
    requires ValidTag(u) && (key == RESULT_STUB || key == ResultKey(agentTag))
    ensures !Admitting(key)(TagBinding(u))
  {
    TopicAdmission(key, TagBinding(u), RouteKeyForTag(u));
    var k := ResultKeyWords(key, agentTag);
    RouteKeyMisses(u, k);
  }

  lemma RouteKeyWords(u: string)
    requires ValidTag(u)
    ensures Split(RouteKeyForTag(u), '.') == ["cx", "res", "exec", "sca-resolver", RUN_SCAN, u] + ["#"]
  {
    ValidTagIsAscii(u);
    ResolverWords(RUN_SCAN, Dot(u, "#"));
    DotWords(u, "#");
    SplitPlain("#", '.');
  }

  lemma RouteStubPlain(u: string)
    requires ValidTag(u)
    ensures MANY !in ["cx", "res", "exec", "sca-resolver", RUN_SCAN, u]
  {
    ValidTagIsAscii(u);
  }

  lemma PrefixMiss(p: seq<string>, k: seq<string>, i: nat)
    requires MANY !in p && i < |p| && i < |k| && p[i] != ONE && p[i] != k[i]
    ensures !MatchWords(p + [MANY], k)
  {
    MatchPrefix(p, k);
  }

  lemma RouteKeyMisses(u: string, k: seq<string>)
    requires ValidTag(u)
    requires |k| >= 5 && k[..5] == COMPLETE_STUB
    ensures !MatchWords(Split(RouteKeyForTag(u), '.'), k)
  {
    RouteKeyWords(u);
    RouteStubPlain(u);
    var p := ["cx", "res", "exec", "sca-resolver", RUN_SCAN, u];
    assert k[4] == k[..5][4] == SCAN_COMPLETE;
    assert |RUN_SCAN| != |SCAN_COMPLETE| && |RUN_SCAN| != |ONE|;
    PrefixMiss(p, k, 4);
  }
}
