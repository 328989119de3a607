/** Group ids by clone URL: a cache in front of the group directory, with error counters, shared by concurrent calls. */
module Grouping {
  import opened Options

  datatype GroupDef = GroupDef(name: string, id: string)

  /** One answer of the directory to a search for a path. */
  datatype Answer = LookupError | Groups(defs: seq<GroupDef>)

  /** The id an answer gives for a path: the first group named exactly so. */
  function Exact(a: Answer, path: string): Option<string>
  {
    if a.LookupError? then None else FirstNamed(a.defs, path)
  }

  function FirstNamed(defs: seq<GroupDef>, path: string): Option<string>
  {
    if defs == [] then None
    else if defs[0].name == path then Some(defs[0].id)
    else FirstNamed(defs[1..], path)
  }

  /** The first group of this answer that is named exactly `path` has this id. */
  ghost predicate NamedAt(a: Answer, path: string, id: string, k: int)
  {
    && a.Groups? && 0 <= k < |a.defs| && a.defs[k].name == path && a.defs[k].id == id
    && forall j :: 0 <= j < k ==> a.defs[j].name != path
  }

  ghost predicate Names(a: Answer, path: string, id: string)
  {
    exists k :: NamedAt(a, path, id, k)
  }

  lemma {:induction false} FirstNamedAt(defs: seq<GroupDef>, path: string) returns (k: int)
    ensures FirstNamed(defs, path).Some? ==> NamedAt(Groups(defs), path, FirstNamed(defs, path).value, k)
    ensures FirstNamed(defs, path).None? ==> forall j :: 0 <= j < |defs| ==> defs[j].name != path
  {
    k := 0;
    if defs != [] && defs[0].name != path {
      k := FirstNamedAt(defs[1..], path);
      assert forall j :: 1 <= j < |defs| ==> defs[j] == defs[1..][j - 1];
      k := k + 1;
    }
  }

  /** The id found is that of the first group with exactly this name, and none is found iff there is no such group. */
  lemma ExactMeans(a: Answer, path: string)
    ensures forall id :: Exact(a, path) == Some(id) <==> Names(a, path, id)
    ensures Exact(a, path).None? <==> a.LookupError? || forall k :: 0 <= k < |a.defs| ==> a.defs[k].name != path
  {
    if a.Groups? {
      var k := FirstNamedAt(a.defs, path);
      forall id | Names(a, path, id) ensures Exact(a, path) == Some(id) {
        var j :| NamedAt(a, path, id, j);
        assert j < k || k < j || j == k;
      }
    }
  }

  /** The cached ids and the error counters. */
  datatype Cache = Cache(index: map<string, string>, errors: map<string, nat>)

  function AddError(errors: map<string, nat>, path: string): map<string, nat>
  {
    errors[path := (if path in errors then errors[path] else 0) + 1]
  }

  /** Whether an answer counts as an error: a failure, or no groups at all. */
  predicate IsError(a: Answer)
  {
    a.LookupError? || a.defs == []
  }

  /** The cache after one path was resolved under the lock; the answer is only asked for when the path is not cached. */
  function Resolved(c: Cache, path: string, a: Answer): Cache
  {
    if path in c.index then c.(errors := c.errors - {path})
    else if IsError(a) then c.(errors := AddError(c.errors, path))
    else
      match Exact(a, path)
      case Some(id) => Cache(c.index[path := id], c.errors - {path})
      case None => c
  }

  /** The id contributed to the result, if any. */
  function Outcome(c: Cache, path: string, a: Answer): Option<string>
  {
    if path in c.index then Some(c.index[path]) else Exact(a, path)
  }

  // ---- runs: lookups of any number of calls and purges, in any order the lock allows

  datatype Event = Lookup(path: string, answer: Answer) | Purge

  function Apply(c: Cache, e: Event): Cache
  {
    match e
    case Lookup(path, a) => Resolved(c, path, a)
    case Purge => Cache(map[], map[])
  }

  function Run(es: seq<Event>): Cache
  {
    if es == [] then Cache(map[], map[]) else Apply(Run(es[..|es| - 1]), es[|es| - 1])
  }

  /** Event `i` is an answer naming the path exactly with this id, and the cache was not purged since. */
  ghost predicate Gave(es: seq<Event>, i: int, path: string, id: string)
  {
    && 0 <= i < |es| && es[i].Lookup? && es[i].path == path && Names(es[i].answer, path, id)
    && forall j :: i < j < |es| ==> !es[j].Purge?
  }

  lemma {:induction false} CacheDisjoint(es: seq<Event>)
    ensures Run(es).index.Keys !! Run(es).errors.Keys
  {
    if es != [] {
      CacheDisjoint(es[..|es| - 1]);
    }
  }

  lemma {:induction false} CachedWasGiven(es: seq<Event>, p: string)
    requires p in Run(es).index
    ensures exists i :: Gave(es, i, p, Run(es).index[p])
  {
    var prior, e, id := es[..|es| - 1], es[|es| - 1], Run(es).index[p];
    if p in Run(prior).index {
      CachedWasGiven(prior, p);
      var i :| Gave(prior, i, p, Run(prior).index[p]);
      assert Gave(es, i, p, id);
    } else {
      ExactMeans(e.answer, p);
      assert Gave(es, |es| - 1, p, id);
    }
  }

  /**
   Whenever the lock is free, cached paths and error-counted paths are disjoint, and every cached id was the
   exact-name answer of some lookup since the last purge.
   */
  lemma CacheInvariant(es: seq<Event>)
    ensures Run(es).index.Keys !! Run(es).errors.Keys
    ensures forall p :: p in Run(es).index ==> exists i :: Gave(es, i, p, Run(es).index[p])
  {
    CacheDisjoint(es);
    forall p | p in Run(es).index ensures exists i :: Gave(es, i, p, Run(es).index[p]) {
      CachedWasGiven(es, p);
    }
  }

  /** How many lookups of a path failed or found no groups since the last purge. */
  ghost function Failures(es: seq<Event>, path: string): nat
  {
    if es == [] || es[|es| - 1].Purge? then 0
    else
      var e := es[|es| - 1];
      Failures(es[..|es| - 1], path)
      + if e.path == path && (e.answer == LookupError || e.answer == Groups([])) then 1 else 0
  }

  /** A path that is not cached has an error counter exactly when it failed, and it counts the failures. */
  lemma {:induction false} ErrorsCounted(es: seq<Event>, path: string)
    requires path !in Run(es).index
    ensures path in Run(es).errors <==> Failures(es, path) > 0
    ensures path in Run(es).errors ==> Run(es).errors[path] == Failures(es, path)
  {
    if es != [] && !es[|es| - 1].Purge? {
      assert path !in Run(es[..|es| - 1]).index;
      ErrorsCounted(es[..|es| - 1], path);
      var e := es[|es| - 1];
      ExactMeans(e.answer, e.path);
    }
  }

  /** Lookups since the last purge were answered by this directory or failed. */
  ghost predicate AnsweredBy(es: seq<Event>, dir: string -> Answer)
  {
    es == [] || es[|es| - 1].Purge? ||
    ((es[|es| - 1].answer == LookupError || es[|es| - 1].answer == dir(es[|es| - 1].path))
      && AnsweredBy(es[..|es| - 1], dir))
  }

  lemma {:induction false} CacheFollowsDirectory(es: seq<Event>, dir: string -> Answer)
    requires AnsweredBy(es, dir)
    ensures forall p :: p in Run(es).index ==> Exact(dir(p), p) == Some(Run(es).index[p])
  {
    if es != [] && !es[|es| - 1].Purge? {
      CacheFollowsDirectory(es[..|es| - 1], dir);
    }
  }

  /**
   With a directory fixed since the last purge, a lookup in any interleaving gives exactly what an uncached
   lookup would give, unless the path was not cached and the call failed.
   */
  lemma CacheRefines(es: seq<Event>, dir: string -> Answer, path: string, fails: bool)
    requires AnsweredBy(es, dir)
    ensures Outcome(Run(es), path, if fails then LookupError else dir(path)) ==
      if fails && path !in Run(es).index then None else Exact(dir(path), path)
  {
    CacheFollowsDirectory(es, dir);
  }

  // ---- the service as code

  datatype Route = Route(pattern: string, groups: seq<string>)

  /** The ids of the first `n` paths that the directory knows, without a cache. */
  function Uncached(paths: seq<string>, n: nat, dir: string -> Answer): seq<string>
    requires n <= |paths|
  {
    if n == 0 then []
    else
      var before := Uncached(paths, n - 1, dir);
      var id := Exact(dir(paths[n - 1]), paths[n - 1]);
      if id.Some? then before + [id.value] else before
  }

  /** Path by path: the id of the first group named exactly so is added, and nothing if there is none. */
  lemma UncachedAdds(paths: seq<string>, n: nat, dir: string -> Answer)
    requires 0 < n <= |paths|
    ensures var p, before, after := paths[n - 1], Uncached(paths, n - 1, dir), Uncached(paths, n, dir);
      && (forall id :: Names(dir(p), p, id) ==> after == before + [id])
      && ((forall id :: !Names(dir(p), p, id)) ==> after == before)
  {
    ExactMeans(dir(paths[n - 1]), paths[n - 1]);
  }

  function UncachedRoutes(routes: seq<Route>, n: nat, url: string, matches: (string, string) -> bool,
                          dir: string -> Answer): seq<string>
    requires n <= |routes|
  {
    if n == 0 then []
    else
      var before := UncachedRoutes(routes, n - 1, url, matches, dir);
      var r := routes[n - 1];
      if matches(r.pattern, url) then before + Uncached(r.groups, |r.groups|, dir) else before
  }

  // ---- one call among others

  /** At each of these places the lookups since the last purge were answered by this directory or failed. */
  ghost predicate FixedAt(es: seq<Event>, mine: seq<nat>, dir: string -> Answer)
  {
    forall k :: 0 <= k < |mine| ==> mine[k] <= |es| && AnsweredBy(es[..mine[k]], dir)
  }

  /** The places in a run where one call looks its paths up, one after the other, without failing. */
  ghost predicate Lookups(es: seq<Event>, mine: seq<nat>, paths: seq<string>, dir: string -> Answer)
  {
    && |mine| == |paths|
    && (forall k :: 0 <= k < |mine| ==> mine[k] < |es| && es[mine[k]] == Lookup(paths[k], dir(paths[k])))
    && (forall j, k :: 0 <= j < k < |mine| ==> mine[j] < mine[k])
  }

  /** The ids the first `n` of those lookups contribute, each from the cache as it is at its turn. */
  ghost function Collected(es: seq<Event>, mine: seq<nat>, paths: seq<string>, dir: string -> Answer,
                           n: nat): seq<string>
    requires Lookups(es, mine, paths, dir) && n <= |mine|
  {
    if n == 0 then []
    else
      var before := Collected(es, mine, paths, dir, n - 1);
      var id := Outcome(Run(es[..mine[n - 1]]), paths[n - 1], dir(paths[n - 1]));
      if id.Some? then before + [id.value] else before
  }

  /** Whatever other calls and purges come in between, a call collects what uncached lookups would give. */
  lemma {:induction false} InterleavedLookups(es: seq<Event>, mine: seq<nat>, paths: seq<string>,
                                              dir: string -> Answer, n: nat)
    requires FixedAt(es, mine, dir) && Lookups(es, mine, paths, dir) && n <= |mine|
    ensures Collected(es, mine, paths, dir, n) == Uncached(paths, n, dir)
  {
    if n > 0 {
      InterleavedLookups(es, mine, paths, dir, n - 1);
      CacheRefines(es[..mine[n - 1]], dir, paths[n - 1], false);
    }
  }

  /** The paths of the first `n` routes that match. */
  function MatchingPaths(routes: seq<Route>, n: nat, url: string, matches: (string, string) -> bool): seq<string>
    requires n <= |routes|
  {
    if n == 0 then []
    else
      MatchingPaths(routes, n - 1, url, matches)
      + if matches(routes[n - 1].pattern, url) then routes[n - 1].groups else []
  }

  lemma {:induction false} UncachedConcat(a: seq<string>, b: seq<string>, n: nat, dir: string -> Answer)
    requires n <= |b|
    ensures Uncached(a + b, |a| + n, dir) == Uncached(a, |a|, dir) + Uncached(b, n, dir)
  {
    if n == 0 {
      UncachedPrefix(a, b, |a|, dir);
    } else {
      UncachedConcat(a, b, n - 1, dir);
      assert (a + b)[|a| + n - 1] == b[n - 1];
    }
  }

  lemma {:induction false} UncachedPrefix(a: seq<string>, b: seq<string>, n: nat, dir: string -> Answer)
    requires n <= |a|
    ensures Uncached(a + b, n, dir) == Uncached(a, n, dir)
  {
    if n > 0 {
      UncachedPrefix(a, b, n - 1, dir);
    }
  }

  lemma {:induction false} RoutesFlatten(routes: seq<Route>, n: nat, url: string, matches: (string, string) -> bool,
                                         dir: string -> Answer)
    requires n <= |routes|
    ensures var paths := MatchingPaths(routes, n, url, matches);
      Uncached(paths, |paths|, dir) == UncachedRoutes(routes, n, url, matches, dir)
  {
    if n > 0 {
      RoutesFlatten(routes, n - 1, url, matches, dir);
      var before := MatchingPaths(routes, n - 1, url, matches);
      var own := if matches(routes[n - 1].pattern, url) then routes[n - 1].groups else [];
      UncachedConcat(before, own, |own|, dir);
    }
  }

  /**
   resolve_groups among concurrent calls and purges, with the directory fixed since the last purge before each
   of its lookups and none of these failing: the same sequence as uncached lookups over the matching routes.
   */
  lemma InterleavedResolve(es: seq<Event>, mine: seq<nat>, routes: seq<Route>, url: string,
                           matches: (string, string) -> bool, dir: string -> Answer)
    requires FixedAt(es, mine, dir) && Lookups(es, mine, MatchingPaths(routes, |routes|, url, matches), dir)
    ensures Collected(es, mine, MatchingPaths(routes, |routes|, url, matches), dir, |mine|)
         == UncachedRoutes(routes, |routes|, url, matches, dir)
  {
    InterleavedLookups(es, mine, MatchingPaths(routes, |routes|, url, matches), dir, |mine|);
    RoutesFlatten(routes, |routes|, url, matches, dir);
  }

  class GroupingService {
    const matches: (string, string) -> bool
    const routes: seq<Route>
    var cache: Cache

    constructor (matches: (string, string) -> bool, routes: seq<Route>)
      ensures this.matches == matches && this.routes == routes && cache == Cache(map[], map[])
    {
      this.matches, this.routes, cache := matches, routes, Cache(map[], map[]);
    }

    /** Cached ids agree with the directory, and no cached path has an error counter. */
    ghost predicate Sound(dir: string -> Answer)
      reads this
    {
      && cache.index.Keys !! cache.errors.Keys
      && forall p :: p in cache.index ==> Exact(dir(p), p) == Some(cache.index[p])
    }

    method PurgeCache()
      modifies this`cache
      ensures forall dir: string -> Answer :: Sound(dir)
    {
      cache := Cache(map[], map[]);
    }

    /** The loop over the group definitions of one answer. */
    method FindExact(defs: seq<GroupDef>, path: string) returns (id: Option<string>)
      ensures id == FirstNamed(defs, path)
      ensures id.Some? ==> exists k :: NamedAt(Groups(defs), path, id.value, k)
      ensures id.None? ==> forall k :: 0 <= k < |defs| ==> defs[k].name != path
    {
      var at := FirstNamedAt(defs, path);
      var i := 0;
      while i < |defs|
        invariant 0 <= i <= |defs|
        invariant FirstNamed(defs, path) == FirstNamed(defs[i..], path)
      {
        if defs[i].name == path {
          return Some(defs[i].id);
        }
        i := i + 1;
      }
      return None;
    }

    /** One path, under the lock. */
    method ResolveOne(path: string, a: Answer) returns (id: Option<string>)
      modifies this`cache
      ensures cache == Resolved(old(cache), path, a) && id == Outcome(old(cache), path, a)
      // an uncached path gives, and caches, the id of the first group named exactly so, or nothing
      ensures path !in old(cache).index && id.Some? ==>
        Names(a, path, id.value) && cache.index == old(cache).index[path := id.value]
      ensures path !in old(cache).index && id.None? ==>
        cache.index == old(cache).index && forall i :: !Names(a, path, i)
      ensures path in old(cache).index ==> id == Some(old(cache).index[path]) && cache.index == old(cache).index
    {
      ExactMeans(a, path);
      if path !in cache.index {
        if IsError(a) {
          cache := cache.(errors := AddError(cache.errors, path));
          return None;
        }
        var found := FindExact(a.defs, path);
        if found.Some? {
          cache := cache.(index := cache.index[path := found.value]);
        }
      }
      if path in cache.index {
        id := Some(cache.index[path]);
        cache := cache.(errors := cache.errors - {path});
      } else {
        id := None;
      }
    }

    method ResolveGroupIds(paths: seq<string>, dir: string -> Answer) returns (ids: seq<string>)
      requires Sound(dir)
      modifies this`cache
      ensures Sound(dir) && ids == Uncached(paths, |paths|, dir)
    {
      ids := [];
      for n := 0 to |paths|
        invariant Sound(dir) && ids == Uncached(paths, n, dir)
      {
        var id := ResolveOne(paths[n], dir(paths[n]));
        if id.Some? {
          ids := ids + [id.value];
        }
      }
    }

    /** resolve_groups returns the same sequence as uncached lookups over the matching routes. */
    method ResolveGroups(url: string, dir: string -> Answer) returns (resolved: seq<string>)
      requires Sound(dir)
      modifies this`cache
      ensures Sound(dir) && resolved == UncachedRoutes(routes, |routes|, url, matches, dir)
    {
      resolved := [];
      for n := 0 to |routes|
        invariant Sound(dir) && resolved == UncachedRoutes(routes, n, url, matches, dir)
      {
        if matches(routes[n].pattern, url) {
          var ids := ResolveGroupIds(routes[n].groups, dir);
          resolved := resolved + ids;
        }
      }
    }
  }
}
