/** Workflow states, workflow names and the routing keys and queue names made from them. */
module Names {
  import opened Text

  datatype ScanState = Await | Feedback | Annotate
  datatype ScanWorkflow = PR | Push

  function StateName(s: ScanState): string
  {
    match s
    case Await => "await"
    case Feedback => "feedback"
    case Annotate => "annotate"
  }

  const PULL_REQUEST := "pull-request"
  const PUSH_GEN_SARIF := "push-gen-sarif"

  /** Two texts around a dot, as the f-strings of the topic makers put them. */
  function Dot(a: string, b: string): string
  {
    a + "." + b
  }

  /** PRFeedbackService.make_topic */
  function PrTopic(state: ScanState, workflow: string, moniker: string): string
  {
    Dot("cx", Dot("pr", Dot(StateName(state), Dot(workflow, moniker))))
  }

  /** PushFeedbackService.make_topic */
  function PushTopic(state: ScanState, workflow: string, moniker: string): string
  {
    Dot("cx", Dot("push", Dot(StateName(state), Dot(workflow, moniker))))
  }

  /** `cx.res.exec.sca-resolver.` followed by an operation and the rest of the key */
  function ResolverKey(op: string, rest: string): string
  {
    Dot("cx", Dot("res", Dot("exec", Dot("sca-resolver", Dot(op, rest)))))
  }

  const RUN_SCAN := "run-scan"
  const SCAN_COMPLETE := "scan-complete"

  /** make_routekey_for_tag: the binding key of a tag's request queue */
  function RouteKeyForTag(tag: string): string
  {
    ResolverKey(RUN_SCAN, Dot(tag, "#"))
  }

  /** make_topic_for_tag: the key a request for a tag is published under */
  function TopicForTag(tag: string, moniker: string): string
  {
    ResolverKey(RUN_SCAN, Dot(tag, moniker))
  }

  /** ROUTEKEY_RESOLVER_RESULT_STUB: the key of the timeout handler's failure results */
  const RESULT_STUB := Dot("cx", Dot("res", Dot("exec", Dot("sca-resolver", SCAN_COMPLETE))))

  /** The key of a result published by an agent serving a tag */
  function ResultKey(tag: string): string
  {
    ResolverKey(SCAN_COMPLETE, tag)
  }

  /** The keys under which queues are bound. */
  datatype BindingKey =
    | PollBinding | PollBindingLegacy
    | FeedbackPr | AnnotatePr | GenSarif
    | ScanComplete | DeadLetter
    | ForTag(tag: string)
    | Unused // exchange-to-exchange bindings of the fanout exchanges carry an empty key

  function KeyText(k: BindingKey): string
  {
    match k
    case PollBinding => Dot("cx", Dot("*", Dot("await", Dot("*", "*"))))
    case PollBindingLegacy => Dot("cx", Dot("pr", Dot("await", Dot("*", "*"))))
    case FeedbackPr => Dot("cx", Dot("pr", Dot("feedback", Dot(PULL_REQUEST, "*"))))
    case AnnotatePr => Dot("cx", Dot("pr", Dot("annotate", Dot(PULL_REQUEST, "*"))))
    case GenSarif => Dot("cx", Dot("push", Dot("feedback", Dot(PUSH_GEN_SARIF, "*"))))
    case ScanComplete => ResolverKey(SCAN_COMPLETE, "#")
    case DeadLetter => Dot("cx", Dot("res", "#"))
    case ForTag(tag) => RouteKeyForTag(tag)
    case Unused => ""
  }

  // ---- words of the keys

  lemma DotWords(word: string, rest: string)
    requires '.' !in word
    ensures Split(Dot(word, rest), '.') == [word] + Split(rest, '.')
  {
    SplitAtSeparator(word, rest, '.');
    SplitPlain(word, '.');
  }

  lemma FiveWords(w0: string, w1: string, w2: string, w3: string, rest: string)
    requires '.' !in w0 && '.' !in w1 && '.' !in w2 && '.' !in w3
    ensures Split(Dot(w0, Dot(w1, Dot(w2, Dot(w3, rest)))), '.') == [w0, w1, w2, w3] + Split(rest, '.')
  {
    DotWords(w3, rest);
    DotWords(w2, Dot(w3, rest));
    DotWords(w1, Dot(w2, Dot(w3, rest)));
    DotWords(w0, Dot(w1, Dot(w2, Dot(w3, rest))));
  }

  // ---- tags

  /** A character outside the negated class of the tag validator: 0-9, a-z, the range A to z, dash, underscore. */
  predicate TagChar(c: char)
  {
    '0' <= c <= '9' || 'a' <= c <= 'z' || 'A' <= c <= 'z' || c == '-' || c == '_'
  }

  predicate ValidTag(tag: string)
  {
    forall i :: 0 <= i < |tag| ==> TagChar(tag[i])
  }

  datatype TagCheck = TagsValid | InvalidTag(tag: string)

  /** __validate_tags: refuses the list at the first tag with a foreign character. */
  method ValidateTags(tags: seq<string>) returns (r: TagCheck)
    ensures r.TagsValid? <==> forall i :: 0 <= i < |tags| ==> ValidTag(tags[i])
    ensures r.InvalidTag? ==>
      exists k :: 0 <= k < |tags| && tags[k] == r.tag && !ValidTag(tags[k])
                  && forall i :: 0 <= i < k ==> ValidTag(tags[i])
  {
    for k := 0 to |tags|
      invariant forall i :: 0 <= i < k ==> ValidTag(tags[i])
    {
      var bad := FindForeignChar(tags[k]);
      if bad {
        return InvalidTag(tags[k]);
      }
    }
    return TagsValid;
  }

  /** The regular expression search for one or more characters of the negated class. */
  method FindForeignChar(tag: string) returns (found: bool)
    ensures found <==> !ValidTag(tag)
  {
    for i := 0 to |tag|
      invariant forall j :: 0 <= j < i ==> TagChar(tag[j])
    {
      if !TagChar(tag[i]) {
        return true;
      }
    }
    return false;
  }

  // ---- queue names

  function HexDigit(n: nat): char
    requires n < 16
  {
    if n < 10 then (n + '0' as int) as char else (n - 10 + 'A' as int) as char
  }

  /** Characters `urllib.parse.quote` leaves alone. */
  predicate QuoteSafe(c: char)
  {
    '0' <= c <= '9' || 'a' <= c <= 'z' || 'A' <= c <= 'Z' || c in "_.-~/"
  }

  predicate Ascii(s: string)
  {
    forall i :: 0 <= i < |s| ==> s[i] < 128 as char
  }

  function QuoteChar(c: char): string
    requires c < 128 as char
  {
    if QuoteSafe(c) then [c] else ['%', HexDigit(c as int / 16), HexDigit(c as int % 16)]
  }

  /** `urllib.parse.quote` on ASCII text */
  function Quote(s: string): string
    requires Ascii(s)
  {
    if s == "" then "" else QuoteChar(s[0]) + Quote(s[1..])
  }

  function HexValue(c: char): nat
  {
    if '0' <= c <= '9' then c as int - '0' as int
    else if 'A' <= c <= 'F' then c as int - 'A' as int + 10
    else 0
  }

  function Unquote(s: string): string
  {
    if s == "" then ""
    else if s[0] == '%' && |s| >= 3 then
      [(16 * HexValue(s[1]) + HexValue(s[2])) as char] + Unquote(s[3..])
    else [s[0]] + Unquote(s[1..])
  }

  lemma UnquoteStep(c: char, rest: string)
    requires c < 128 as char
    ensures Unquote(QuoteChar(c) + rest) == [c] + Unquote(rest)
  {
    var whole := QuoteChar(c) + rest;
    if QuoteSafe(c) {
      assert whole[1..] == rest;
    } else {
      var hi, lo := c as int / 16, c as int % 16;
      assert whole[0] == '%' && whole[1] == HexDigit(hi) && whole[2] == HexDigit(lo) && whole[3..] == rest;
      assert HexValue(HexDigit(hi)) == hi && HexValue(HexDigit(lo)) == lo;
    }
  }

  /** Percent-quoting loses nothing. */
  lemma {:induction false} UnquoteOfQuote(s: string)
    requires Ascii(s)
    ensures Unquote(Quote(s)) == s
  {
    if s != "" {
      UnquoteStep(s[0], Quote(s[1..]));
      UnquoteOfQuote(s[1..]);
    }
  }

  const REQUEST_QUEUE_STUB := "cx:res:Resolver Req"

  /** make_queuename_for_tag */
  function QueueNameForTag(tag: string): string
    requires Ascii(tag)
  {
    REQUEST_QUEUE_STUB + ":" + Quote(tag)
  }

  lemma ValidTagIsAscii(tag: string)
    requires ValidTag(tag)
    ensures Ascii(tag) && '.' !in tag && tag != "*" && tag != "#"
  {
    assert |tag| == 1 ==> TagChar(tag[0]);
  }

  /** Queue names are distinct iff tags are. */
  lemma QueueNameInjective(t: string, u: string)
    requires Ascii(t) && Ascii(u)
    ensures QueueNameForTag(t) == QueueNameForTag(u) <==> t == u
  {
    UnquoteOfQuote(t);
    UnquoteOfQuote(u);
    var n := |REQUEST_QUEUE_STUB + ":"|;
    assert QueueNameForTag(t)[n..] == Quote(t);
    assert QueueNameForTag(u)[n..] == Quote(u);
  }

  // ---- the texts themselves

  lemma Flat(w0: string, w1: string, w2: string, w3: string, rest: string)
    ensures Dot(w0, Dot(w1, Dot(w2, Dot(w3, rest)))) == w0 + "." + w1 + "." + w2 + "." + w3 + "." + rest
  {
  }

  // One key each: the words put together, then the text they make.

  lemma StubPrAwait()
    ensures "cx" + "." + "pr" + "." + "await" + "." + "pull-request" + "." == "cx.pr.await.pull-request."
  {
  }

  lemma StubPrFeedback()
    ensures "cx" + "." + "pr" + "." + "feedback" + "." + "pull-request" + "." == "cx.pr.feedback.pull-request."
  {
  }

  lemma StubPrAnnotate()
    ensures "cx" + "." + "pr" + "." + "annotate" + "." + "pull-request" + "." == "cx.pr.annotate.pull-request."
  {
  }

  lemma StubPushAwait()
    ensures "cx" + "." + "push" + "." + "await" + "." + "push-gen-sarif" + "." == "cx.push.await.push-gen-sarif."
  {
  }

  lemma StubPushFeedback()
    ensures "cx" + "." + "push" + "." + "feedback" + "." + "push-gen-sarif" + "." == "cx.push.feedback.push-gen-sarif."
  {
  }

  lemma StubPollBinding()
    ensures "cx" + "." + "*" + "." + "await" + "." + "*" + "." == "cx.*.await.*."
  {
  }

  lemma StubPollBindingLegacy()
    ensures "cx" + "." + "pr" + "." + "await" + "." + "*" + "." == "cx.pr.await.*."
  {
  }

  lemma StubResolver()
    ensures "cx" + "." + "res" + "." + "exec" + "." + "sca-resolver" + "." == "cx.res.exec.sca-resolver."
  {
  }

  lemma PrAwaitSpelled(moniker: string)
    ensures PrTopic(Await, PULL_REQUEST, moniker) == "cx.pr.await.pull-request." + moniker
  {
    StubPrAwait();
    Flat("cx", "pr", "await", "pull-request", moniker);
  }

  lemma PrFeedbackSpelled(moniker: string)
    ensures PrTopic(Feedback, PULL_REQUEST, moniker) == "cx.pr.feedback.pull-request." + moniker
  {
    StubPrFeedback();
    Flat("cx", "pr", "feedback", "pull-request", moniker);
  }

  lemma PrAnnotateSpelled(moniker: string)
    ensures PrTopic(Annotate, PULL_REQUEST, moniker) == "cx.pr.annotate.pull-request." + moniker
  {
    StubPrAnnotate();
    Flat("cx", "pr", "annotate", "pull-request", moniker);
  }

  lemma PushAwaitSpelled(moniker: string)
    ensures PushTopic(Await, PUSH_GEN_SARIF, moniker) == "cx.push.await.push-gen-sarif." + moniker
  {
    StubPushAwait();
    Flat("cx", "push", "await", "push-gen-sarif", moniker);
  }

  lemma PushFeedbackSpelled(moniker: string)
    ensures PushTopic(Feedback, PUSH_GEN_SARIF, moniker) == "cx.push.feedback.push-gen-sarif." + moniker
  {
    StubPushFeedback();
    Flat("cx", "push", "feedback", "push-gen-sarif", moniker);
  }

  lemma PollBindingSpelled()
    ensures KeyText(PollBinding) == "cx.*.await.*." + "*"
  {
    StubPollBinding();
    Flat("cx", "*", "await", "*", "*");
  }

  lemma PollBindingLegacySpelled()
    ensures KeyText(PollBindingLegacy) == "cx.pr.await.*." + "*"
  {
    StubPollBindingLegacy();
    Flat("cx", "pr", "await", "*", "*");
  }

  lemma FeedbackPrSpelled()
    ensures KeyText(FeedbackPr) == "cx.pr.feedback.pull-request." + "*"
  {
    StubPrFeedback();
    Flat("cx", "pr", "feedback", "pull-request", "*");
  }

  lemma AnnotatePrSpelled()
    ensures KeyText(AnnotatePr) == "cx.pr.annotate.pull-request." + "*"
  {
    StubPrAnnotate();
    Flat("cx", "pr", "annotate", "pull-request", "*");
  }

  lemma GenSarifSpelled()
    ensures KeyText(GenSarif) == "cx.push.feedback.push-gen-sarif." + "*"
  {
    StubPushFeedback();
    Flat("cx", "push", "feedback", "push-gen-sarif", "*");
  }

  lemma ResolverKeySpelled(op: string, rest: string)
    ensures ResolverKey(op, rest) == "cx.res.exec.sca-resolver." + op + "." + rest
  {
    StubResolver();
    Flat("cx", "res", "exec", "sca-resolver", Dot(op, rest));
  }

  /** The keys the scan queues are bound under, written out. */
  lemma BindingKeysSpelled()
    ensures KeyText(PollBinding) == "cx.*.await.*." + "*"
    ensures KeyText(PollBindingLegacy) == "cx.pr.await.*." + "*"
    ensures KeyText(FeedbackPr) == "cx.pr.feedback.pull-request." + "*"
    ensures KeyText(AnnotatePr) == "cx.pr.annotate.pull-request." + "*"
    ensures KeyText(GenSarif) == "cx.push.feedback.push-gen-sarif." + "*"
  {
    PollBindingSpelled();
    PollBindingLegacySpelled();
    FeedbackPrSpelled();
    AnnotatePrSpelled();
    GenSarifSpelled();
  }

  /** The keys messages are published under, written out. */
  lemma PublishedKeysSpelled(moniker: string)
    ensures PrTopic(Await, PULL_REQUEST, moniker) == "cx.pr.await.pull-request." + moniker
    ensures PrTopic(Feedback, PULL_REQUEST, moniker) == "cx.pr.feedback.pull-request." + moniker
    ensures PrTopic(Annotate, PULL_REQUEST, moniker) == "cx.pr.annotate.pull-request." + moniker
    ensures PushTopic(Await, PUSH_GEN_SARIF, moniker) == "cx.push.await.push-gen-sarif." + moniker
    ensures PushTopic(Feedback, PUSH_GEN_SARIF, moniker) == "cx.push.feedback.push-gen-sarif." + moniker
  {
    PrAwaitSpelled(moniker);
    PrFeedbackSpelled(moniker);
    PrAnnotateSpelled(moniker);
    PushAwaitSpelled(moniker);
    PushFeedbackSpelled(moniker);
  }

  /** The keys of the resolver's requests, queues and results, written out. */
  lemma ResolverKeysSpelled(tag: string, moniker: string)
    ensures TopicForTag(tag, moniker) == "cx.res.exec.sca-resolver." + "run-scan" + "." + (tag + "." + moniker)
    ensures RouteKeyForTag(tag) == "cx.res.exec.sca-resolver." + "run-scan" + "." + (tag + "." + "#")
    ensures ResultKey(tag) == "cx.res.exec.sca-resolver." + "scan-complete" + "." + tag
    ensures KeyText(ScanComplete) == "cx.res.exec.sca-resolver." + "scan-complete" + "." + "#"
  {
    ResolverKeySpelled("run-scan", Dot(tag, moniker));
    ResolverKeySpelled("run-scan", Dot(tag, "#"));
    ResolverKeySpelled("scan-complete", tag);
    ResolverKeySpelled("scan-complete", "#");
  }

  /** The characters a tag may have: letters, digits, dash, underscore and what lies between Z and a, no other. */
  lemma TagAlphabet(c: char)
    ensures TagChar(c) <==> 'a' <= c <= 'z' || 'A' <= c <= 'Z' || '0' <= c <= '9' || c in "-_[\\]^`"
  {
    var s := "-_[\\]^`";
    assert s[0] == '-' && s[1] == '_' && s[2] == '[' && s[3] == '\\' && s[4] == ']' && s[5] == '^' && s[6] == '`';
    assert 'Z' as int == 90 && 'a' as int == 97 && '[' as int == 91 && '`' as int == 96;
    assert '\\' as int == 92 && ']' as int == 93 && '^' as int == 94 && '_' as int == 95;
  }

  /** A tag of letters, digits, dashes and underscores stands in its queue's name as it is. */
  lemma {:induction false} PlainTagUnquoted(tag: string)
    requires forall i :: 0 <= i < |tag| ==> QuoteSafe(tag[i])
    ensures Ascii(tag) && Quote(tag) == tag
  {
    if tag != "" {
      PlainTagUnquoted(tag[1..]);
    }
  }

  lemma QueueNamesSpelled(tag: string)
    requires forall i :: 0 <= i < |tag| ==> QuoteSafe(tag[i])
    ensures Ascii(tag) && QueueNameForTag(tag) == "cx:res:Resolver Req:" + tag
    ensures Ascii("[") && QueueNameForTag("[") == "cx:res:Resolver Req:%5B"
  {
    PlainTagUnquoted(tag);
    assert Quote("[") == "%5B" by {
      assert "["[1..] == "";
    }
  }
}
