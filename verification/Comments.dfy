/**
 Decorating a pull request: find the earlier comment by its marker and edit it, or post a new one. Runs of
 decorations are interleaved with other people's comments, deletions and resolved threads.
 */
module Comments {
  import opened Runs
  import opened Options
  import opened Numbers
  import opened Decoration
  import P = Pagers

  datatype Provider = GitHub | GitLab | Bitbucket

  /** `open`: for Bitbucket, an unresolved thread in a comment that may be edited. */
  datatype Comment = Comment(id: nat, body: string, open: bool)

  datatype State = State(comments: seq<Comment>, next: nat)

  datatype Event =
    | Decorate(content: Content)
    | Other(body: string, open: bool) // somebody else's comment
    | Delete(id: nat)
    | Close(id: nat)                  // the thread is resolved, or editing is no longer permitted

  const PAGE: nat := 100

  function MaxChars(p: Provider): nat
  {
    match p
    case GitHub => 65535
    case GitLab => 1000000
    case Bitbucket => 32000
  }

  /** The full text if it fits, the summary otherwise. */
  function Chosen(p: Provider, c: Content): string
  {
    if |FullContent(c)| <= MaxChars(p) then FullContent(c) else SummaryContent(c)
  }

  lemma ChosenMatches(p: Provider, c: Content)
    ensures MatchesIdentifier(Chosen(p, c))
  {
    SelfRecognised(c);
  }

  /** No text of ours exceeds the limit as long as the summary does not. */
  lemma TextWithinLimit(p: Provider, c: Content)
    ensures |SummaryContent(c)| <= MaxChars(p) ==> |Chosen(p, c)| <= MaxChars(p)
    ensures |Chosen(p, c)| > MaxChars(p) ==> |FullContent(c)| > MaxChars(p) && Chosen(p, c) == SummaryContent(c)
  {
  }

  /** A comment the search accepts. */
  predicate Ours(p: Provider, c: Comment)
  {
    MatchesIdentifier(c.body) && (p.Bitbucket? ==> c.open)
  }

  // ---- the search

  /**
   The listing in the order the search prefers: GitHub's pager under the comment extractor, Bitbucket's
   overlapping windows, GitLab's whole answer from its end, as its loop keeps the last match.
   */
  function Order(p: Provider, cs: seq<Comment>, limit: nat): seq<Comment>
    requires limit >= 1
  {
    match p
    case GitHub => P.Yields(P.Cut(cs, PAGE, P.FullIsLast(PAGE)))
    case GitLab => P.Reverse(cs)
    case Bitbucket => P.Yields(P.Windows(cs, limit))
  }

  /** The comments a search can come across. */
  function Visible(p: Provider, cs: seq<Comment>): seq<Comment>
  {
    if p.GitHub? then cs[..Min(PAGE, |cs|)] else cs
  }

  lemma OrderIsVisible(p: Provider, cs: seq<Comment>, limit: nat, c: Comment)
    requires limit >= 1
    ensures c in Order(p, cs, limit) <==> c in Visible(p, cs)
  {
    match p
    case GitHub =>
      P.CommentsFirstPage(cs, PAGE);
      P.ReverseMember(Visible(p, cs), c);
    case GitLab => P.ReverseMember(cs, c);
    case Bitbucket => P.WindowsCover(cs, limit, c);
  }

  function First(p: Provider, cs: seq<Comment>): (r: Option<nat>)
    ensures r.None? ==> forall c :: c in cs ==> !Ours(p, c)
    ensures r.Some? ==> exists c :: c in cs && Ours(p, c) && c.id == r.value
  {
    if cs == [] then None
    else if Ours(p, cs[0]) then Some(cs[0].id)
    else
      var r := First(p, cs[1..]);
      assert cs == [cs[0]] + cs[1..];
      r
  }

  function Find(p: Provider, cs: seq<Comment>, limit: nat): Option<nat>
    requires limit >= 1
  {
    First(p, Order(p, cs, limit))
  }

  /** The search finds a comment iff one of ours is visible, and what it finds is one of those. */
  lemma FindSpec(p: Provider, cs: seq<Comment>, limit: nat)
    requires limit >= 1
    ensures Find(p, cs, limit).None? <==> forall c :: c in Visible(p, cs) ==> !Ours(p, c)
    ensures Find(p, cs, limit).Some?
        ==> exists c :: c in Visible(p, cs) && Ours(p, c) && c.id == Find(p, cs, limit).value
  {
    forall c: Comment ensures c in Order(p, cs, limit) <==> c in Visible(p, cs) {
      OrderIsVisible(p, cs, limit, c);
    }
  }

  // ---- the machine

  function Edit(cs: seq<Comment>, id: nat, body: string): (r: seq<Comment>)
    ensures |r| == |cs|
    ensures forall i :: 0 <= i < |cs| ==> r[i] == if cs[i].id == id then cs[i].(body := body) else cs[i]
  {
    seq(|cs|, i requires 0 <= i < |cs| => if cs[i].id == id then cs[i].(body := body) else cs[i])
  }

  function Shut(cs: seq<Comment>, id: nat): (r: seq<Comment>)
    ensures |r| == |cs|
    ensures forall i :: 0 <= i < |cs| ==> r[i] == if cs[i].id == id then cs[i].(open := false) else cs[i]
  {
    seq(|cs|, i requires 0 <= i < |cs| => if cs[i].id == id then cs[i].(open := false) else cs[i])
  }

  function Without(cs: seq<Comment>, id: nat): seq<Comment>
  {
    if cs == [] then []
    else if cs[0].id == id then Without(cs[1..], id)
    else [cs[0]] + Without(cs[1..], id)
  }

  /** GitHub lists the oldest comment first, the others the newest. */
  function Post(p: Provider, s: State, body: string, open: bool): State
  {
    var c := Comment(s.next, body, open);
    State(if p.GitHub? then s.comments + [c] else [c] + s.comments, s.next + 1)
  }

  /** One event; nobody else writes the marker. */
  function Apply(p: Provider, limit: nat, s: State, e: Event): State
    requires limit >= 1
  {
    match e
    case Decorate(c) =>
      (match Find(p, s.comments, limit)
       case None => Post(p, s, Chosen(p, c), true)
       case Some(id) => s.(comments := Edit(s.comments, id, Chosen(p, c))))
    case Other(body, open) => if MatchesIdentifier(body) then s else Post(p, s, body, open)
    case Delete(id) => s.(comments := Without(s.comments, id))
    case Close(id) => s.(comments := Shut(s.comments, id))
  }

  function Run(p: Provider, limit: nat, s: State, es: seq<Event>): State
    requires limit >= 1
  {
    if es == [] then s else Apply(p, limit, Run(p, limit, s, es[..|es| - 1]), es[|es| - 1])
  }

  /** Identifiers are distinct and already given out. */
  predicate WellFormed(s: State)
  {
    && (forall i :: 0 <= i < |s.comments| ==> s.comments[i].id < s.next)
    && (forall i, j :: 0 <= i < j < |s.comments| ==> s.comments[i].id != s.comments[j].id)
  }

  lemma {:induction false} WithoutMember(cs: seq<Comment>, id: nat, c: Comment)
    ensures c in Without(cs, id) <==> c in cs && c.id != id
  {
    if cs != [] {
      WithoutMember(cs[1..], id, c);
      assert cs == [cs[0]] + cs[1..];
    }
  }

  lemma {:induction false} WithoutKeeps(cs: seq<Comment>, id: nat, next: nat)
    requires WellFormed(State(cs, next))
    ensures WellFormed(State(Without(cs, id), next))
  {
    if cs != [] {
      var rest := Without(cs[1..], id);
      WithoutKeeps(cs[1..], id, next);
      forall i | 0 <= i < |rest| ensures rest[i].id != cs[0].id {
        WithoutMember(cs[1..], id, rest[i]);
      }
    }
  }

  lemma PostKeeps(p: Provider, s: State, body: string, open: bool)
    requires WellFormed(s)
    ensures WellFormed(Post(p, s, body, open))
  {
  }

  lemma RewriteKeeps(s: State, t: State)
    requires WellFormed(s) && s.next == t.next && |s.comments| == |t.comments|
    requires forall i :: 0 <= i < |s.comments| ==> s.comments[i].id == t.comments[i].id
    ensures WellFormed(t)
  {
  }

  lemma StepWellFormed(p: Provider, limit: nat, s: State, e: Event)
    requires limit >= 1 && WellFormed(s)
    ensures WellFormed(Apply(p, limit, s, e))
  {
    match e
    case Decorate(c) =>
      if Find(p, s.comments, limit).None? {
        PostKeeps(p, s, Chosen(p, c), true);
      } else {
        RewriteKeeps(s, Apply(p, limit, s, e));
      }
    case Other(body, open) => PostKeeps(p, s, body, open);
    case Delete(id) => WithoutKeeps(s.comments, id, s.next);
    case Close(id) => RewriteKeeps(s, Apply(p, limit, s, e));
  }

  // ---- counting our comments

  function Number(p: Provider, cs: seq<Comment>): nat
  {
    if cs == [] then 0 else (if Ours(p, cs[0]) then 1 else 0) + Number(p, cs[1..])
  }

  lemma {:induction false} NumberConcat(p: Provider, a: seq<Comment>, b: seq<Comment>)
    ensures Number(p, a + b) == Number(p, a) + Number(p, b)
  {
    if a == [] {
      assert a + b == b;
    } else {
      NumberConcat(p, a[1..], b);
      assert (a + b)[1..] == a[1..] + b;
    }
  }

  lemma {:induction false} NumberZero(p: Provider, cs: seq<Comment>)
    ensures Number(p, cs) == 0 <==> forall c :: c in cs ==> !Ours(p, c)
  {
    if cs != [] {
      NumberZero(p, cs[1..]);
      assert cs == [cs[0]] + cs[1..];
    }
  }

  /** Comment by comment the same recognition, the same number. */
  lemma {:induction false} NumberSame(p: Provider, a: seq<Comment>, b: seq<Comment>)
    requires |a| == |b|
    requires forall i :: 0 <= i < |a| ==> (Ours(p, b[i]) ==> Ours(p, a[i]))
    ensures Number(p, b) <= Number(p, a)
    ensures (forall i :: 0 <= i < |a| ==> (Ours(p, a[i]) ==> Ours(p, b[i]))) ==> Number(p, b) == Number(p, a)
  {
    if a != [] {
      NumberSame(p, a[1..], b[1..]);
    }
  }

  lemma {:induction false} NumberWithout(p: Provider, cs: seq<Comment>, id: nat)
    ensures Number(p, Without(cs, id)) <= Number(p, cs)
  {
    if cs != [] {
      NumberWithout(p, cs[1..], id);
      if cs[0].id != id {
        assert Without(cs, id)[1..] == Without(cs[1..], id);
      }
    }
  }

  lemma NumberPost(p: Provider, s: State, body: string, open: bool)
    ensures Number(p, Post(p, s, body, open).comments)
         == Number(p, s.comments) + if Ours(p, Comment(s.next, body, open)) then 1 else 0
  {
    var c := Comment(s.next, body, open);
    NumberConcat(p, s.comments, [c]);
    NumberConcat(p, [c], s.comments);
    assert [c][1..] == [];
  }

  /** Editing the comment found changes what it says, not which comments are ours. */
  lemma EditFound(p: Provider, s: State, limit: nat, body: string) returns (k: nat)
    requires limit >= 1 && WellFormed(s) && MatchesIdentifier(body)
    requires Find(p, s.comments, limit).Some?
    ensures var after := Edit(s.comments, Find(p, s.comments, limit).value, body);
            && k < |after| && Ours(p, after[k]) && after[k].body == body
            && forall i :: 0 <= i < |after| ==> (Ours(p, after[i]) <==> Ours(p, s.comments[i]))
  {
    var id := Find(p, s.comments, limit).value;
    FindSpec(p, s.comments, limit);
    var c :| c in Visible(p, s.comments) && Ours(p, c) && c.id == id;
    k :| 0 <= k < |s.comments| && s.comments[k] == c;
    EditAt(p, s, k, body);
  }

  lemma EditAt(p: Provider, s: State, k: nat, body: string)
    requires WellFormed(s) && k < |s.comments| && Ours(p, s.comments[k]) && MatchesIdentifier(body)
    ensures var after := Edit(s.comments, s.comments[k].id, body);
            && Ours(p, after[k]) && after[k].body == body
            && forall i :: 0 <= i < |after| ==> (Ours(p, after[i]) <==> Ours(p, s.comments[i]))
  {
    forall i | 0 <= i < |s.comments| && i != k ensures s.comments[i].id != s.comments[k].id {
      assert i < k || k < i;
    }
  }

  // ---- one decoration

  /** Afterwards some comment of ours holds the text chosen; the number grows by one iff none of ours was visible. */
  lemma DecorateOnce(p: Provider, limit: nat, s: State, c: Content)
    requires limit >= 1 && WellFormed(s)
    ensures var t := Apply(p, limit, s, Decorate(c));
            && Number(p, t.comments) ==
                 Number(p, s.comments) + (if Number(p, Visible(p, s.comments)) == 0 then 1 else 0)
            && exists i :: 0 <= i < |t.comments| && Ours(p, t.comments[i]) && t.comments[i].body == Chosen(p, c)
  {
    ChosenMatches(p, c);
    FindSpec(p, s.comments, limit);
    NumberZero(p, Visible(p, s.comments));
    var t := Apply(p, limit, s, Decorate(c));
    match Find(p, s.comments, limit)
    case None =>
      NumberPost(p, s, Chosen(p, c), true);
      var k := if p.GitHub? then |s.comments| else 0;
      assert t.comments[k] == Comment(s.next, Chosen(p, c), true);
    case Some(id) =>
      var k := EditFound(p, s, limit, Chosen(p, c));
      NumberSame(p, s.comments, t.comments);
      assert Ours(p, t.comments[k]) && t.comments[k].body == Chosen(p, c);
  }

  /** Some comment of ours has this text. */
  ghost predicate HasText(p: Provider, cs: seq<Comment>, text: string)
  {
    exists i :: 0 <= i < |cs| && Ours(p, cs[i]) && cs[i].body == text
  }

  /** Comments that are not ours are neither changed, nor lost, nor made. */
  ghost predicate OthersKept(p: Provider, before: seq<Comment>, after: seq<Comment>)
  {
    forall x: Comment :: !Ours(p, x) ==> (x in before <==> x in after)
  }

  lemma PostKeepsOthers(p: Provider, s: State, body: string)
    requires MatchesIdentifier(body)
    ensures OthersKept(p, s.comments, Post(p, s, body, true).comments)
  {
  }

  lemma EditKeepsOthers(p: Provider, s: State, k: nat, body: string)
    requires WellFormed(s) && k < |s.comments| && Ours(p, s.comments[k]) && MatchesIdentifier(body)
    ensures OthersKept(p, s.comments, Edit(s.comments, s.comments[k].id, body))
  {
    var after := Edit(s.comments, s.comments[k].id, body);
    forall i | 0 <= i < |s.comments| && i != k ensures after[i] == s.comments[i] {
      assert i < k || k < i;
    }
    forall x: Comment | !Ours(p, x) ensures x in s.comments <==> x in after {
      if x in s.comments {
        var i :| 0 <= i < |s.comments| && s.comments[i] == x;
        assert after[i] == x;
      }
      if x in after {
        var i :| 0 <= i < |after| && after[i] == x;
        assert i != k;
        assert s.comments[i] == x;
      }
    }
  }

  lemma DecorateKeepsOthers(p: Provider, limit: nat, s: State, c: Content)
    requires limit >= 1 && WellFormed(s)
    ensures OthersKept(p, s.comments, Apply(p, limit, s, Decorate(c)).comments)
  {
    ChosenMatches(p, c);
    FindSpec(p, s.comments, limit);
    match Find(p, s.comments, limit)
    case None => PostKeepsOthers(p, s, Chosen(p, c));
    case Some(id) =>
      var x :| x in Visible(p, s.comments) && Ours(p, x) && x.id == id;
      var k :| 0 <= k < |s.comments| && s.comments[k] == x;
      EditKeepsOthers(p, s, k, Chosen(p, c));
  }

  lemma EditedIff(p: Provider, limit: nat, s: State, c: Content)
    requires limit >= 1
    ensures |Apply(p, limit, s, Decorate(c)).comments| == |s.comments|
       <==> exists x :: x in Visible(p, s.comments) && Ours(p, x)
    ensures |Apply(p, limit, s, Decorate(c)).comments| == |s.comments|
         || |Apply(p, limit, s, Decorate(c)).comments| == |s.comments| + 1
  {
    FindSpec(p, s.comments, limit);
  }

  /** On GitHub a comment is edited, and none added, exactly when one of the first hundred carries the marker. */
  lemma GitHubEditsIff(limit: nat, s: State, c: Content)
    requires limit >= 1
    ensures |Apply(GitHub, limit, s, Decorate(c)).comments| == |s.comments|
       <==> exists i :: 0 <= i < |s.comments| && i < 100 && MatchesIdentifier(s.comments[i].body)
  {
    EditedIff(GitHub, limit, s, c);
    var page := Visible(GitHub, s.comments);
    assert forall i :: 0 <= i < |page| ==> page[i] == s.comments[i] && i < 100;
    if i :| 0 <= i < |s.comments| && i < 100 && MatchesIdentifier(s.comments[i].body) {
      assert page[i] in page && Ours(GitHub, page[i]);
    }
    if x :| x in page && Ours(GitHub, x) {
      var i :| 0 <= i < |page| && page[i] == x;
      assert MatchesIdentifier(s.comments[i].body);
    }
  }

  /** On GitLab exactly when any comment carries it, whatever became of its thread. */
  lemma GitLabEditsIff(limit: nat, s: State, c: Content)
    requires limit >= 1
    ensures |Apply(GitLab, limit, s, Decorate(c)).comments| == |s.comments|
       <==> exists x :: x in s.comments && MatchesIdentifier(x.body)
  {
    EditedIff(GitLab, limit, s, c);
  }

  /** On Bitbucket exactly when one carries it that may still be edited in an open thread. */
  lemma BitbucketEditsIff(limit: nat, s: State, c: Content)
    requires limit >= 1
    ensures |Apply(Bitbucket, limit, s, Decorate(c)).comments| == |s.comments|
       <==> exists x :: x in s.comments && MatchesIdentifier(x.body) && x.open
  {
    EditedIff(Bitbucket, limit, s, c);
  }

  // ---- complete listings: at most one comment of ours, over every run

  lemma StepAtMostOne(p: Provider, limit: nat, s: State, e: Event)
    requires limit >= 1 && WellFormed(s) && !p.GitHub? && Number(p, s.comments) <= 1
    ensures Number(p, Apply(p, limit, s, e).comments) <= 1
  {
    match e
    case Decorate(c) => DecorateOnce(p, limit, s, c);
    case Other(body, open) => NumberPost(p, s, body, open);
    case Delete(id) => NumberWithout(p, s.comments, id);
    case Close(id) => NumberSame(p, s.comments, Shut(s.comments, id));
  }

  lemma {:induction false} AtMostOneComment(p: Provider, limit: nat, s: State, es: seq<Event>)
    requires limit >= 1 && WellFormed(s) && !p.GitHub? && Number(p, s.comments) <= 1
    ensures WellFormed(Run(p, limit, s, es)) && Number(p, Run(p, limit, s, es).comments) <= 1
  {
    if es != [] {
      AtMostOneComment(p, limit, s, es[..|es| - 1]);
      StepWellFormed(p, limit, Run(p, limit, s, es[..|es| - 1]), es[|es| - 1]);
      StepAtMostOne(p, limit, Run(p, limit, s, es[..|es| - 1]), es[|es| - 1]);
    }
  }

  /** Every run that ends with a decoration leaves exactly one comment of ours, and it holds the last text. */
  lemma ExactlyOneAfterDecoration(p: Provider, limit: nat, s: State, es: seq<Event>, c: Content)
    requires limit >= 1 && WellFormed(s) && !p.GitHub? && Number(p, s.comments) <= 1
    ensures var cs := Run(p, limit, s, es + [Decorate(c)]).comments;
            && Number(p, cs) == 1
            && exists i :: 0 <= i < |cs| && Ours(p, cs[i]) && cs[i].body == Chosen(p, c)
  {
    AtMostOneComment(p, limit, s, es);
    assert (es + [Decorate(c)])[..|es|] == es;
    DecorateOnce(p, limit, Run(p, limit, s, es), c);
  }

  // ---- GitHub: only the first page is searched

  predicate Growing(es: seq<Event>)
  {
    forall i :: 0 <= i < |es| ==> es[i].Decorate? || es[i].Other?
  }

  function Decorations(es: seq<Event>): nat
  {
    if es == [] then 0 else Decorations(es[..|es| - 1]) + if es[|es| - 1].Decorate? then 1 else 0
  }

  lemma {:induction false} RunWellFormed(p: Provider, limit: nat, s: State, es: seq<Event>)
    requires limit >= 1 && WellFormed(s)
    ensures WellFormed(Run(p, limit, s, es))
  {
    if es != [] {
      RunWellFormed(p, limit, s, es[..|es| - 1]);
      StepWellFormed(p, limit, Run(p, limit, s, es[..|es| - 1]), es[|es| - 1]);
    }
  }

  /** What is on the first page stays recognised or not. */
  lemma PageKept(limit: nat, s: State, e: Event)
    requires limit >= 1 && WellFormed(s) && (e.Decorate? || e.Other?)
    ensures var t := Apply(GitHub, limit, s, e);
            && |s.comments| <= |t.comments|
            && (forall i :: 0 <= i < |s.comments| ==> t.comments[i].id == s.comments[i].id)
            && (forall i :: 0 <= i < |s.comments| ==> (Ours(GitHub, t.comments[i]) <==> Ours(GitHub, s.comments[i])))
  {
    if e.Decorate? && Find(GitHub, s.comments, limit).Some? {
      ChosenMatches(GitHub, e.content);
      var k := EditFound(GitHub, s, limit, Chosen(GitHub, e.content));
    }
  }

  lemma VisibleOurs(s: State)
    ensures Number(GitHub, Visible(GitHub, s.comments)) > 0
       <==> exists i :: 0 <= i < |s.comments| && i < PAGE && Ours(GitHub, s.comments[i])
  {
    var page := Visible(GitHub, s.comments);
    NumberZero(GitHub, page);
    if i :| 0 <= i < |s.comments| && i < PAGE && Ours(GitHub, s.comments[i]) {
      assert page[i] in page;
    }
  }

  /** A comment of ours on the first page is found for ever: decorating adds none. */
  lemma {:induction false} FoundForEver(limit: nat, s: State, es: seq<Event>, k: nat)
    requires limit >= 1 && WellFormed(s) && Growing(es)
    requires k < PAGE && k < |s.comments| && Ours(GitHub, s.comments[k])
    ensures var t := Run(GitHub, limit, s, es);
            && k < |t.comments| && Ours(GitHub, t.comments[k])
            && Number(GitHub, t.comments) == Number(GitHub, s.comments)
  {
    if es != [] {
      var u, e := Run(GitHub, limit, s, es[..|es| - 1]), es[|es| - 1];
      FoundForEver(limit, s, es[..|es| - 1], k);
      RunWellFormed(GitHub, limit, s, es[..|es| - 1]);
      PageKept(limit, u, e);
      VisibleOurs(u);
      match e
      case Decorate(c) => DecorateOnce(GitHub, limit, u, c);
      case Other(body, open) => NumberPost(GitHub, u, body, open);
    }
  }

  /** A full first page without ours stays so: every decoration adds a comment. */
  lemma {:induction false} NeverFound(limit: nat, s: State, es: seq<Event>)
    requires limit >= 1 && WellFormed(s) && Growing(es)
    requires |s.comments| >= PAGE && Number(GitHub, Visible(GitHub, s.comments)) == 0
    ensures var t := Run(GitHub, limit, s, es);
            && |t.comments| >= PAGE && Number(GitHub, Visible(GitHub, t.comments)) == 0
            && Number(GitHub, t.comments) == Number(GitHub, s.comments) + Decorations(es)
  {
    if es != [] {
      var u, e := Run(GitHub, limit, s, es[..|es| - 1]), es[|es| - 1];
      NeverFound(limit, s, es[..|es| - 1]);
      RunWellFormed(GitHub, limit, s, es[..|es| - 1]);
      PageKept(limit, u, e);
      VisibleOurs(u);
      VisibleOurs(Apply(GitHub, limit, u, e));
      match e
      case Decorate(c) => DecorateOnce(GitHub, limit, u, c);
      case Other(body, open) => NumberPost(GitHub, u, body, open);
    }
  }

  lemma RunSnoc(p: Provider, limit: nat, s: State, es: seq<Event>, e: Event)
    requires limit >= 1
    ensures Run(p, limit, s, es + [e]) == Apply(p, limit, Run(p, limit, s, es), e)
  {
    assert (es + [e])[..|es + [e]| - 1] == es;
  }

  lemma RunConcat(p: Provider, limit: nat, s: State, es: seq<Event>, more: seq<Event>)
    requires limit >= 1
    ensures Run(p, limit, s, es + more) == Run(p, limit, Run(p, limit, s, es), more)
  {
    var run := (t: State, gs: seq<Event>) => Run(p, limit, t, gs);
    var step := (t: State, e: Event) => Apply(p, limit, t, e);
    forall t: State, gs: seq<Event>, e: Event ensures run(t, gs + [e]) == step(run(t, gs), e) {
      RunSnoc(p, limit, t, gs, e);
    }
    Concat(run, step, s, es, more);
  }

  /** The first decoration posts a comment at the end of the listing. */
  lemma FirstDecoration(limit: nat, s: State, c: Content) returns (t: State)
    requires limit >= 1 && WellFormed(s) && Number(GitHub, s.comments) == 0
    ensures t == Run(GitHub, limit, s, [Decorate(c)]) && WellFormed(t) && Number(GitHub, t.comments) == 1
    ensures MatchesIdentifier(Chosen(GitHub, c))
    ensures t.comments == s.comments + [Comment(s.next, Chosen(GitHub, c), true)]
    ensures forall i :: 0 <= i < |s.comments| ==> !Ours(GitHub, s.comments[i])
  {
    t := Apply(GitHub, limit, s, Decorate(c));
    assert [Decorate(c)][..0] == [];
    NumberZero(GitHub, s.comments);
    FindSpec(GitHub, s.comments, limit);
    ChosenMatches(GitHub, c);
    NumberPost(GitHub, s, Chosen(GitHub, c), true);
    StepWellFormed(GitHub, limit, s, Decorate(c));
  }

  /**
   The first decoration of a pull request without a comment of ours, then any further growth: one comment of
   ours iff fewer than 100 comments were there before or nothing was decorated again; otherwise one for each.
   */
  lemma GitHubExactly(limit: nat, s: State, c: Content, es: seq<Event>)
    requires limit >= 1 && WellFormed(s) && Growing(es) && Number(GitHub, s.comments) == 0
    ensures Number(GitHub, Run(GitHub, limit, s, [Decorate(c)] + es).comments)
         == if |s.comments| < 100 then 1 else 1 + Decorations(es)
  {
    var t := FirstDecoration(limit, s, c);
    RunConcat(GitHub, limit, s, [Decorate(c)], es);
    if |s.comments| < PAGE {
      FoundForEver(limit, t, es, |s.comments|);
    } else {
      VisibleOurs(t);
      NeverFound(limit, t, es);
    }
  }

  // ---- GitHub again: deleting other comments only moves ours forward

  /** Our comment, with this identifier, is on the first page. */
  ghost predicate OnFirstPage(s: State, ours: nat)
  {
    exists k :: 0 <= k < |s.comments| && k < PAGE && s.comments[k].id == ours && Ours(GitHub, s.comments[k])
  }

  lemma {:induction false} WithoutMovesForward(cs: seq<Comment>, id: nat, k: nat) returns (j: nat)
    requires k < |cs| && cs[k].id != id
    ensures j <= k && j < |Without(cs, id)| && Without(cs, id)[j] == cs[k]
  {
    if k == 0 {
      j := 0;
    } else {
      j := WithoutMovesForward(cs[1..], id, k - 1);
      if cs[0].id != id {
        j := j + 1;
      }
    }
  }

  lemma {:induction false} NumberMember(p: Provider, cs: seq<Comment>, k: nat)
    requires k < |cs| && Ours(p, cs[k])
    ensures Number(p, cs) >= 1
  {
    if k > 0 {
      NumberMember(p, cs[1..], k - 1);
    }
  }

  lemma DeleteKeepsOurs(limit: nat, s: State, id: nat, ours: nat)
    requires limit >= 1 && WellFormed(s) && OnFirstPage(s, ours) && Number(GitHub, s.comments) == 1 && id != ours
    ensures var t := Apply(GitHub, limit, s, Delete(id)); OnFirstPage(t, ours) && Number(GitHub, t.comments) == 1
  {
    var k :| 0 <= k < |s.comments| && k < PAGE && s.comments[k].id == ours && Ours(GitHub, s.comments[k]);
    var j := WithoutMovesForward(s.comments, id, k);
    NumberWithout(GitHub, s.comments, id);
    NumberMember(GitHub, Without(s.comments, id), j);
  }

  lemma CloseKeepsOurs(limit: nat, s: State, id: nat, ours: nat)
    requires limit >= 1 && WellFormed(s) && OnFirstPage(s, ours) && Number(GitHub, s.comments) == 1
    ensures var t := Apply(GitHub, limit, s, Close(id)); OnFirstPage(t, ours) && Number(GitHub, t.comments) == 1
  {
    var t := Apply(GitHub, limit, s, Close(id));
    var k :| 0 <= k < |s.comments| && k < PAGE && s.comments[k].id == ours && Ours(GitHub, s.comments[k]);
    assert t.comments[k].id == ours && Ours(GitHub, t.comments[k]);
    NumberSame(GitHub, s.comments, t.comments);
  }

  lemma GrowthKeepsOurs(limit: nat, s: State, e: Event, ours: nat)
    requires limit >= 1 && WellFormed(s) && OnFirstPage(s, ours) && Number(GitHub, s.comments) == 1
    requires e.Decorate? || e.Other?
    ensures var t := Apply(GitHub, limit, s, e); OnFirstPage(t, ours) && Number(GitHub, t.comments) == 1
  {
    var t := Apply(GitHub, limit, s, e);
    var k :| 0 <= k < |s.comments| && k < PAGE && s.comments[k].id == ours && Ours(GitHub, s.comments[k]);
    PageKept(limit, s, e);
    assert t.comments[k].id == ours && Ours(GitHub, t.comments[k]);
    VisibleOurs(s);
    match e
    case Decorate(c) => DecorateOnce(GitHub, limit, s, c);
    case Other(body, open) => NumberPost(GitHub, s, body, open);
  }

  lemma {:induction false} OursStays(limit: nat, s: State, es: seq<Event>, ours: nat)
    requires limit >= 1 && WellFormed(s) && OnFirstPage(s, ours) && Number(GitHub, s.comments) == 1
    requires forall i :: 0 <= i < |es| ==> es[i] != Delete(ours)
    ensures var t := Run(GitHub, limit, s, es); OnFirstPage(t, ours) && Number(GitHub, t.comments) == 1
  {
    if es != [] {
      var u, e := Run(GitHub, limit, s, es[..|es| - 1]), es[|es| - 1];
      OursStays(limit, s, es[..|es| - 1], ours);
      RunWellFormed(GitHub, limit, s, es[..|es| - 1]);
      match e
      case Delete(id) => DeleteKeepsOurs(limit, u, id, ours);
      case Close(id) => CloseKeepsOurs(limit, u, id, ours);
      case _ => GrowthKeepsOurs(limit, u, e, ours);
    }
  }

  /**
   On GitHub, with fewer than 100 comments before the first decoration, exactly one comment of ours remains
   over any further run in which it is not itself deleted: further decorations, other people's comments and
   the deletion of any of those.
   */
  lemma GitHubOneComment(limit: nat, s: State, c: Content, es: seq<Event>)
    requires limit >= 1 && WellFormed(s) && Number(GitHub, s.comments) == 0 && |s.comments| < 100
    requires forall i :: 0 <= i < |es| ==> es[i] != Delete(s.next)
    ensures Number(GitHub, Run(GitHub, limit, s, [Decorate(c)] + es).comments) == 1
  {
    var t := FirstDecoration(limit, s, c);
    RunConcat(GitHub, limit, s, [Decorate(c)], es);
    var k := |s.comments|;
    assert t.comments[k].id == s.next && Ours(GitHub, t.comments[k]);
    OursStays(limit, t, es, s.next);
  }

  // ---- GitHub, every deletion allowed, as long as ours is always posted on the first page

  /** At most one comment of ours, and it is on the first page. */
  ghost predicate Early(s: State)
  {
    && Number(GitHub, s.comments) <= 1
    && forall i :: 0 <= i < |s.comments| && Ours(GitHub, s.comments[i]) ==> i < PAGE
  }

  /** A decoration that posts does so with fewer than 100 comments listed. */
  ghost predicate PostsEarly(limit: nat, s: State, e: Event)
    requires limit >= 1
  {
    e.Decorate? && Find(GitHub, s.comments, limit).None? ==> |s.comments| < 100
  }

  ghost predicate AllPostsEarly(limit: nat, s: State, es: seq<Event>)
    requires limit >= 1
  {
    es == []
    || (AllPostsEarly(limit, s, es[..|es| - 1])
        && PostsEarly(limit, Run(GitHub, limit, s, es[..|es| - 1]), es[|es| - 1]))
  }

  lemma EarlyVisible(s: State)
    requires Early(s)
    ensures Number(GitHub, Visible(GitHub, s.comments)) == 0 <==> Number(GitHub, s.comments) == 0
  {
    VisibleOurs(s);
    NumberZero(GitHub, s.comments);
    if Number(GitHub, s.comments) > 0 {
      var c :| c in s.comments && Ours(GitHub, c);
      var i :| 0 <= i < |s.comments| && s.comments[i] == c;
    }
  }

  lemma DecorateEarly(limit: nat, s: State, e: Event)
    requires limit >= 1 && WellFormed(s) && Early(s) && e.Decorate? && PostsEarly(limit, s, e)
    ensures Early(Apply(GitHub, limit, s, e)) && Number(GitHub, Apply(GitHub, limit, s, e).comments) == 1
  {
    EarlyVisible(s);
    DecorateOnce(GitHub, limit, s, e.content);
    PageKept(limit, s, e);
  }

  lemma OtherEarly(limit: nat, s: State, e: Event)
    requires limit >= 1 && WellFormed(s) && Early(s) && e.Other?
    ensures Early(Apply(GitHub, limit, s, e))
  {
    NumberPost(GitHub, s, e.body, e.open);
    PageKept(limit, s, e);
  }

  lemma {:induction false} WithoutComesFrom(cs: seq<Comment>, id: nat, j: nat) returns (k: nat)
    requires j < |Without(cs, id)|
    ensures j <= k < |cs| && Without(cs, id)[j] == cs[k]
  {
    if cs[0].id == id {
      k := WithoutComesFrom(cs[1..], id, j);
      k := k + 1;
    } else if j == 0 {
      k := 0;
    } else {
      k := WithoutComesFrom(cs[1..], id, j - 1);
      k := k + 1;
    }
  }

  lemma DeleteEarly(limit: nat, s: State, id: nat)
    requires limit >= 1 && Early(s)
    ensures Early(Apply(GitHub, limit, s, Delete(id)))
  {
    NumberWithout(GitHub, s.comments, id);
    var left := Without(s.comments, id);
    forall j | 0 <= j < |left| && Ours(GitHub, left[j]) ensures j < PAGE {
      var k := WithoutComesFrom(s.comments, id, j);
    }
  }

  lemma CloseEarly(limit: nat, s: State, id: nat)
    requires limit >= 1 && Early(s)
    ensures Early(Apply(GitHub, limit, s, Close(id)))
  {
    NumberSame(GitHub, s.comments, Shut(s.comments, id));
  }

  lemma StepEarly(limit: nat, s: State, e: Event)
    requires limit >= 1 && WellFormed(s) && Early(s) && PostsEarly(limit, s, e)
    ensures Early(Apply(GitHub, limit, s, e))
  {
    match e
    case Decorate(_) => DecorateEarly(limit, s, e);
    case Other(_, _) => OtherEarly(limit, s, e);
    case Delete(id) => DeleteEarly(limit, s, id);
    case Close(id) => CloseEarly(limit, s, id);
  }

  /** Over any run, deletions of ours included, in which ours is only ever posted early: at most one of ours. */
  lemma {:induction false} GitHubAtMostOne(limit: nat, s: State, es: seq<Event>)
    requires limit >= 1 && WellFormed(s) && Early(s) && AllPostsEarly(limit, s, es)
    ensures Early(Run(GitHub, limit, s, es)) && WellFormed(Run(GitHub, limit, s, es))
  {
    if es != [] {
      GitHubAtMostOne(limit, s, es[..|es| - 1]);
      StepEarly(limit, Run(GitHub, limit, s, es[..|es| - 1]), es[|es| - 1]);
      StepWellFormed(GitHub, limit, Run(GitHub, limit, s, es[..|es| - 1]), es[|es| - 1]);
    }
  }

  /** And exactly one after a decoration, with the text it chose. */
  lemma GitHubOneAfterDecoration(limit: nat, s: State, es: seq<Event>, c: Content)
    requires limit >= 1 && WellFormed(s) && Early(s) && AllPostsEarly(limit, s, es + [Decorate(c)])
    ensures var cs := Run(GitHub, limit, s, es + [Decorate(c)]).comments;
            && Number(GitHub, cs) == 1
            && exists i :: 0 <= i < |cs| && Ours(GitHub, cs[i]) && cs[i].body == Chosen(GitHub, c)
  {
    assert (es + [Decorate(c)])[..|es|] == es;
    GitHubAtMostOne(limit, s, es);
    RunSnoc(GitHub, limit, s, es, Decorate(c));
    DecorateEarly(limit, Run(GitHub, limit, s, es), Decorate(c));
    DecorateOnce(GitHub, limit, Run(GitHub, limit, s, es), c);
  }

  // ---- the services

  class PullRequest {
    var state: State

    method PostComment(p: Provider, body: string)
      modifies this
      ensures state == Post(p, old(state), body, true)
    {
      state := Post(p, state, body, true);
    }

    method EditComment(id: nat, body: string)
      modifies this
      ensures state == old(state).(comments := Edit(old(state).comments, id, body))
    {
      state := state.(comments := Edit(state.comments, id, body));
    }

    /** GHService.exec_pr_decorate: stop at the first match of the paged listing. */
    method DecorateGitHub(c: Content)
      requires WellFormed(state)
      modifies this
      ensures state == Apply(GitHub, 1, old(state), Decorate(c))
      ensures HasText(GitHub, state.comments,
                      if |FullContent(c)| <= 65535 then FullContent(c) else SummaryContent(c))
      ensures OthersKept(GitHub, old(state).comments, state.comments)
    {
      DecorateOnce(GitHub, 1, state, c);
      DecorateKeepsOthers(GitHub, 1, state, c);
      var items := P.Generate(P.Cut(state.comments, PAGE, P.FullIsLast(PAGE)));
      var target := FirstMatch(GitHub, items);
      if target.None? {
        PostComment(GitHub, Chosen(GitHub, c));
      } else {
        EditComment(target.value, Chosen(GitHub, c));
      }
    }

    /** BBDCService.exec_pr_decorate with __find_existing_comment; `limit` is the server's page size. */
    method DecorateBitbucket(c: Content, limit: nat)
      requires limit >= 1 && WellFormed(state)
      modifies this
      ensures state == Apply(Bitbucket, limit, old(state), Decorate(c))
      ensures HasText(Bitbucket, state.comments,
                      if |FullContent(c)| <= 32000 then FullContent(c) else SummaryContent(c))
      ensures OthersKept(Bitbucket, old(state).comments, state.comments)
      // a resolved thread, or a comment that may not be edited, is left alone
      ensures forall x :: x in old(state).comments && !x.open ==> x in state.comments
    {
      DecorateOnce(Bitbucket, limit, state, c);
      DecorateKeepsOthers(Bitbucket, limit, state, c);
      var items := P.Generate(P.Windows(state.comments, limit));
      var target := FirstMatch(Bitbucket, items);
      if target.None? {
        PostComment(Bitbucket, Chosen(Bitbucket, c));
      } else {
        EditComment(target.value, Chosen(Bitbucket, c));
      }
    }

    /** GLService.exec_pr_decorate: the loop runs on, so the last match is the one updated. */
    method DecorateGitLab(c: Content)
      requires WellFormed(state)
      modifies this
      ensures state == Apply(GitLab, 1, old(state), Decorate(c))
      ensures HasText(GitLab, state.comments,
                      if |FullContent(c)| <= 1000000 then FullContent(c) else SummaryContent(c))
      ensures OthersKept(GitLab, old(state).comments, state.comments)
    {
      DecorateOnce(GitLab, 1, state, c);
      DecorateKeepsOthers(GitLab, 1, state, c);
      var noteId := LastMatch(state.comments);
      if noteId.None? {
        PostComment(GitLab, Chosen(GitLab, c));
      } else {
        EditComment(noteId.value, Chosen(GitLab, c));
      }
    }
  }

  // the GitLab loop: every note is looked at and the last match kept, the last note being the first posted
  method LastMatch(cs: seq<Comment>) returns (noteId: Option<nat>)
    ensures noteId == First(GitLab, P.Reverse(cs))
  {
    noteId := None;
    for i := 0 to |cs|
      invariant noteId == First(GitLab, P.Reverse(cs[..i]))
    {
      assert cs[..i + 1][..i] == cs[..i];
      assert P.Reverse(cs[..i + 1])[1..] == P.Reverse(cs[..i]);
      if MatchesIdentifier(cs[i].body) {
        noteId := Some(cs[i].id);
      }
    }
    assert cs[..|cs|] == cs;
  }

  method FirstMatch(p: Provider, items: seq<Comment>) returns (target: Option<nat>)
    ensures target == First(p, items)
  {
    target := None;
    for i := 0 to |items|
      invariant First(p, items) == First(p, items[i..]) && target == None
    {
      assert items[i..][1..] == items[i + 1..];
      if Ours(p, items[i]) {
        target := Some(items[i].id);
        break;
      }
    }
  }
}
