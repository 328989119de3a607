/** The broker set-up run once per service: exchanges, queues with their dead-letter exchange, and bindings. */
module Setup {
  import opened Options
  import opened Names
  import opened Topology

  /** What has been declared on the broker. */
  datatype Declared = Declared(
    exchanges: map<Exchange, ExchangeKind>, queues: map<Queue, Option<Exchange>>, bindings: set<Binding>)
  {
    /** Everything declared has the type and the dead-letter exchange the routing lemmas assume. */
    predicate Consistent()
    {
      && (forall e :: e in exchanges ==> exchanges[e] == KindOf(e))
      && (forall q :: q in queues ==> queues[q] == DeadLetterExchange(q))
    }

    /** Every binding joins what has been declared: a bind call names existing exchanges and queues. */
    predicate Grounded()
    {
      forall b :: b in bindings ==> b.source in exchanges && Exists(b.dest)
    }

    predicate Exists(d: Destination)
    {
      match d
      case ToExchange(e) => e in exchanges
      case ToQueue(q) => q in queues
    }

    /** Nothing declared earlier is gone, and the bindings are the earlier ones and `extra`. */
    predicate Extends(was: Declared, extra: set<Binding>)
    {
      && was.exchanges.Keys <= exchanges.Keys
      && was.queues.Keys <= queues.Keys
      && bindings == was.bindings + extra
    }

    predicate Sound()
    {
      Consistent() && Grounded()
    }
  }

  const SCAN_EXCHANGES: set<Exchange> := {
    ScanInLegacy, ScanIn, ScanAwaitLegacy, ScanAwait, ScanAnnotate, ScanFeedback, SarifWork,
    PollingDeliveryLegacy, PollingDelivery
  }

  const SCAN_QUEUES: set<Queue> := {
    AwaitedScansLegacy, AwaitedScans, PollingScansLegacy, PollingScans, PrFeedback, GenerateSarif, PrAnnotating
  }

  // The scan bindings, by where they lead.

  const LEGACY_FANS: set<Binding> := {
    Binding(ScanInLegacy, Unused, ToExchange(ScanAwaitLegacy)),
    Binding(ScanInLegacy, Unused, ToExchange(ScanFeedback)),
    Binding(ScanInLegacy, Unused, ToExchange(ScanAnnotate))
  }

  const FANS: set<Binding> := {
    Binding(ScanIn, Unused, ToExchange(ScanAwait)),
    Binding(ScanIn, Unused, ToExchange(ScanFeedback)),
    Binding(ScanIn, Unused, ToExchange(SarifWork)),
    Binding(ScanIn, Unused, ToExchange(ScanAnnotate))
  }

  const POLL_BINDINGS: set<Binding> := {
    Binding(ScanAwaitLegacy, PollBindingLegacy, ToQueue(AwaitedScansLegacy)),
    Binding(ScanAwait, PollBinding, ToQueue(AwaitedScans)),
    Binding(PollingDeliveryLegacy, PollBindingLegacy, ToQueue(PollingScansLegacy)),
    Binding(PollingDelivery, PollBinding, ToQueue(PollingScans))
  }

  const FEEDBACK_BINDINGS: set<Binding> := {
    Binding(ScanFeedback, FeedbackPr, ToQueue(PrFeedback)),
    Binding(SarifWork, GenSarif, ToQueue(GenerateSarif)),
    Binding(ScanAnnotate, AnnotatePr, ToQueue(PrAnnotating))
  }

  lemma ScanBindingsSplit()
    ensures SCAN_BINDINGS == LEGACY_FANS + FANS + POLL_BINDINGS + FEEDBACK_BINDINGS
  {
  }

  function Distinct(tags: seq<string>): set<string>
  {
    set t | t in tags
  }

  /** The tags of the first `n` services. */
  function TagsOf(services: seq<Service>, n: nat): set<string>
    requires n <= |services|
  {
    if n == 0 then {} else TagsOf(services, n - 1) + Distinct(services[n - 1].agentTags)
  }

  lemma {:induction false} TagsOfMember(services: seq<Service>, n: nat, t: string)
    requires n <= |services|
    ensures t in TagsOf(services, n) <==> exists i :: 0 <= i < n && t in services[i].agentTags
  {
    if n > 0 {
      TagsOfMember(services, n - 1, t);
    }
  }

  /**
   What the set-up means for a request: under a valid tag it reaches exactly that tag's queue if some service
   allows the tag, and no queue otherwise.
   */
  lemma SetupServesTags(services: seq<Service>, t: string, moniker: string, q: Queue)
    requires ValidTags(TagsOf(services, |services|)) && ValidTag(t)
    ensures Ascii(t)
    ensures Reaches(Bindings(TagsOf(services, |services|)), ResolverScanIn, TopicForTag(t, moniker), q) <==>
      (exists i :: 0 <= i < |services| && t in services[i].agentTags) && q == ResolverRequests(QueueNameForTag(t))
  {
    TagsOfMember(services, |services|, t);
    RequestReachesExactly(TagsOf(services, |services|), t, moniker, q);
  }

  class Broker {
    var declared: Declared

    constructor ()
      ensures declared == Declared(map[], map[], {})
    {
      declared := Declared(map[], map[], {});
    }

    method DeclareExchange(e: Exchange, kind: ExchangeKind)
      requires declared.Sound() && kind == KindOf(e)
      modifies this
      ensures declared.Sound()
      ensures declared.exchanges.Keys == old(declared).exchanges.Keys + {e}
      ensures declared.queues == old(declared).queues && declared.bindings == old(declared).bindings
    {
      declared := declared.(exchanges := declared.exchanges[e := kind]);
    }

    method DeclareQueue(q: Queue, dlx: Option<Exchange>)
      requires declared.Sound() && dlx == DeadLetterExchange(q)
      modifies this
      ensures declared.Sound()
      ensures declared.queues.Keys == old(declared).queues.Keys + {q}
      ensures declared.exchanges == old(declared).exchanges && declared.bindings == old(declared).bindings
    {
      declared := declared.(queues := declared.queues[q := dlx]);
    }

    method Bind(source: Exchange, key: BindingKey, dest: Destination)
      requires declared.Sound() && source in declared.exchanges && declared.Exists(dest)
      modifies this
      ensures declared.Sound()
      ensures declared == old(declared).(bindings := old(declared).bindings + {Binding(source, key, dest)})
    {
      declared := declared.(bindings := declared.bindings + {Binding(source, key, dest)});
    }

    method ScanExchanges()
      requires declared.Sound()
      modifies this
      ensures declared.Sound() && declared.queues == old(declared).queues && declared.bindings == old(declared).bindings
      ensures declared.exchanges.Keys == old(declared).exchanges.Keys + SCAN_EXCHANGES
    {
      EntryExchanges();
      WorkExchanges();
      PollingExchanges();
    }

    method PollingExchanges()
      requires declared.Sound()
      modifies this
      ensures declared.Sound() && declared.queues == old(declared).queues && declared.bindings == old(declared).bindings
      ensures declared.exchanges.Keys == old(declared).exchanges.Keys + {PollingDeliveryLegacy, PollingDelivery}
    {
      DeclareExchange(PollingDeliveryLegacy, Topic);
      DeclareExchange(PollingDelivery, Topic);
    }

    method EntryExchanges()
      requires declared.Sound()
      modifies this
      ensures declared.Sound() && declared.queues == old(declared).queues && declared.bindings == old(declared).bindings
      ensures declared.exchanges.Keys
           == old(declared).exchanges.Keys + {ScanInLegacy, ScanIn, ScanAwaitLegacy, ScanAwait}
    {
      DeclareExchange(ScanInLegacy, Fanout);
      DeclareExchange(ScanIn, Fanout);
      DeclareExchange(ScanAwaitLegacy, Topic);
      DeclareExchange(ScanAwait, Topic);
    }

    method WorkExchanges()
      requires declared.Sound()
      modifies this
      ensures declared.Sound() && declared.queues == old(declared).queues && declared.bindings == old(declared).bindings
      ensures declared.exchanges.Keys == old(declared).exchanges.Keys + {ScanAnnotate, ScanFeedback, SarifWork}
    {
      DeclareExchange(ScanAnnotate, Topic);
      DeclareExchange(ScanFeedback, Topic);
      DeclareExchange(SarifWork, Topic);
    }

    method ScanQueues()
      requires declared.Sound()
      modifies this
      ensures declared.Sound() && declared.Extends(old(declared), {}) && SCAN_QUEUES <= declared.queues.Keys
      ensures declared.exchanges == old(declared).exchanges
    {
      DeclareQueue(AwaitedScansLegacy, Some(PollingDeliveryLegacy));
      DeclareQueue(AwaitedScans, Some(PollingDelivery));
      DeclareQueue(PollingScansLegacy, None);
      DeclareQueue(PollingScans, None);
      DeclareQueue(PrFeedback, None);
      DeclareQueue(GenerateSarif, None);
      DeclareQueue(PrAnnotating, None);
    }

    method BindLegacyFans()
      requires declared.Sound() && SCAN_EXCHANGES <= declared.exchanges.Keys
      modifies this
      ensures declared.Sound() && declared == old(declared).(bindings := old(declared).bindings + LEGACY_FANS)
    {
      Bind(ScanInLegacy, Unused, ToExchange(ScanAwaitLegacy));
      Bind(ScanInLegacy, Unused, ToExchange(ScanFeedback));
      Bind(ScanInLegacy, Unused, ToExchange(ScanAnnotate));
    }

    method BindFans()
      requires declared.Sound() && SCAN_EXCHANGES <= declared.exchanges.Keys
      modifies this
      ensures declared.Sound() && declared == old(declared).(bindings := old(declared).bindings + FANS)
    {
      Bind(ScanIn, Unused, ToExchange(ScanAwait));
      Bind(ScanIn, Unused, ToExchange(ScanFeedback));
      Bind(ScanIn, Unused, ToExchange(SarifWork));
      Bind(ScanIn, Unused, ToExchange(ScanAnnotate));
    }

    method BindPolling()
      requires declared.Sound() && SCAN_EXCHANGES <= declared.exchanges.Keys && SCAN_QUEUES <= declared.queues.Keys
      modifies this
      ensures declared.Sound() && declared == old(declared).(bindings := old(declared).bindings + POLL_BINDINGS)
    {
      Bind(ScanAwaitLegacy, PollBindingLegacy, ToQueue(AwaitedScansLegacy));
      Bind(ScanAwait, PollBinding, ToQueue(AwaitedScans));
      Bind(PollingDeliveryLegacy, PollBindingLegacy, ToQueue(PollingScansLegacy));
      Bind(PollingDelivery, PollBinding, ToQueue(PollingScans));
    }

    method BindFeedback()
      requires declared.Sound() && SCAN_EXCHANGES <= declared.exchanges.Keys && SCAN_QUEUES <= declared.queues.Keys
      modifies this
      ensures declared.Sound() && declared == old(declared).(bindings := old(declared).bindings + FEEDBACK_BINDINGS)
    {
      Bind(ScanFeedback, FeedbackPr, ToQueue(PrFeedback));
      Bind(SarifWork, GenSarif, ToQueue(GenerateSarif));
      Bind(ScanAnnotate, AnnotatePr, ToQueue(PrAnnotating));
    }

    /** The scan part of the set-up declares what the routing results assume, all of it on declared ends. */
    method Scans()
      requires declared.Sound()
      modifies this
      ensures declared.Sound() && declared.Extends(old(declared), SCAN_BINDINGS)
    {
      ScanExchanges();
      BindLegacyFans();
      BindFans();
      ScanQueues();
      BindPolling();
      BindFeedback();
      ScanBindingsSplit();
    }

    method TagQueues(tags: seq<string>)
      requires declared.Sound() && ResolverScanIn in declared.exchanges
      requires forall t :: t in tags ==> ValidTag(t)
      modifies this
      ensures declared.Sound() && declared.Extends(old(declared), TagBindings(tags, |tags|))
    {
      for n := 0 to |tags|
        invariant declared.Sound() && declared.Extends(old(declared), TagBindings(tags, n))
      {
        TagQueue(tags[n]);
      }
    }

    method TagQueue(tag: string)
      requires declared.Sound() && ResolverScanIn in declared.exchanges && ValidTag(tag)
      modifies this
      ensures declared.Sound() && declared.Extends(old(declared), {TagBinding(tag)})
    {
      ValidTagIsAscii(tag);
      var queue := ResolverRequests(QueueNameForTag(tag));
      DeclareQueue(queue, Some(ResolverDlx));
      Bind(ResolverScanIn, ForTag(tag), ToQueue(queue));
    }

    method Resolver(tags: seq<string>)
      requires declared.Sound() && forall t :: t in tags ==> ValidTag(t)
      modifies this
      ensures declared.Sound()
      ensures declared.Extends(old(declared), RESOLVER_BINDINGS + TagBindings(tags, |tags|))
    {
      DeclareExchange(ResolverScanIn, Topic);
      DeclareExchange(ResolverDlx, Topic);
      DeclareQueue(ResolverTimeout, None);
      Bind(ResolverDlx, DeadLetter, ToQueue(ResolverTimeout));
      TagQueues(tags);
      DeclareQueue(ResolverFinished, None);
      Bind(ResolverScanIn, ScanComplete, ToQueue(ResolverFinished));
    }

    /**
     The whole set-up: whatever the services and however many of them, the bindings added are exactly the
     scan bindings, the resolver bindings and one binding per tag allowed by some service, each of them
     between an exchange and a destination declared with its type and dead-letter exchange.
     */
    method Setup(services: seq<Service>)
      requires declared.Sound()
      requires forall s :: s in services ==> forall t :: t in s.agentTags ==> ValidTag(t)
      modifies this
      ensures declared.Sound() && ValidTags(TagsOf(services, |services|))
      ensures declared.Extends(old(declared), if services == [] then {} else Bindings(TagsOf(services, |services|)))
    {
      for n := 0 to |services|
        invariant declared.Sound() && ValidTags(TagsOf(services, n))
        invariant declared.Extends(old(declared), AllBindings(services, n))
      {
        ghost var before := declared;
        Scans();
        ghost var middle := declared;
        Resolver(services[n].agentTags);
        assert ValidTags(TagsOf(services, n + 1));
        Stacked(old(declared), before, middle, declared, services, n);
      }
    }
  }

  ghost function AllBindings(services: seq<Service>, n: nat): set<Binding>
    requires n <= |services| && ValidTags(TagsOf(services, n))
  {
    if n == 0 then {} else Bindings(TagsOf(services, n))
  }

  lemma Stacked(a: Declared, b: Declared, c: Declared, d: Declared, services: seq<Service>, n: nat)
    requires n < |services| && ValidTags(TagsOf(services, n)) && ValidTags(TagsOf(services, n + 1))
    requires forall t :: t in services[n].agentTags ==> ValidTag(t)
    requires b.Extends(a, AllBindings(services, n)) && c.Extends(b, SCAN_BINDINGS)
    requires d.Extends(c, RESOLVER_BINDINGS + TagBindings(services[n].agentTags, |services[n].agentTags|))
    ensures d.Extends(a, AllBindings(services, n + 1))
  {
    BindingsGrow(services, n);
    Regrouped(a.bindings, AllBindings(services, n), SCAN_BINDINGS, RESOLVER_BINDINGS,
              TagBindings(services[n].agentTags, |services[n].agentTags|));
    if n == 0 {
      assert TagsOf(services, 0) == {};
      assert Bindings({}) == SCAN_BINDINGS + RESOLVER_BINDINGS;
    }
  }

  lemma Regrouped(a: set<Binding>, b: set<Binding>, c: set<Binding>, d: set<Binding>, e: set<Binding>)
    ensures a + b + c + (d + e) == a + (b + c + d + e)
  {
  }

  /** The bindings of the first `n` tags. */
  function TagBindings(tags: seq<string>, n: nat): set<Binding>
    requires n <= |tags| && forall t :: t in tags ==> ValidTag(t)
  {
    if n == 0 then {} else TagBindings(tags, n - 1) + {TagBinding(tags[n - 1])}
  }

  lemma {:induction false} TagBindingsMember(tags: seq<string>, n: nat, b: Binding)
    requires n <= |tags| && forall t :: t in tags ==> ValidTag(t)
    ensures b in TagBindings(tags, n) <==> exists i :: 0 <= i < n && b == TagBinding(tags[i])
  {
    if n > 0 {
      TagBindingsMember(tags, n - 1, b);
    }
  }

  lemma BindingsGrow(services: seq<Service>, n: nat)
    requires n < |services| && ValidTags(TagsOf(services, n + 1))
    ensures ValidTags(TagsOf(services, n))
    ensures forall t :: t in services[n].agentTags ==> ValidTag(t)
    ensures Bindings(TagsOf(services, n + 1)) ==
      Bindings(TagsOf(services, n)) + SCAN_BINDINGS + RESOLVER_BINDINGS
      + TagBindings(services[n].agentTags, |services[n].agentTags|)
  {
    var tags := services[n].agentTags;
    assert TagsOf(services, n + 1) == TagsOf(services, n) + Distinct(tags);
    assert forall t :: t in tags ==> t in TagsOf(services, n + 1);
    forall b
      ensures b in TagBindings(tags, |tags|) <==> exists t :: t in tags && b == TagBinding(t)
    {
      TagBindingsMember(tags, |tags|, b);
    }
  }
}
