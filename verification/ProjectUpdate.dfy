/** Bringing an existing project up to date: its tags, its name and its group memberships. */
module ProjectUpdate {
  import opened Options

  /** `groups` is null for some tenants. */
  datatype Project = Project(name: string, tags: map<string, string>, groups: Option<seq<string>>)

  datatype Settings = Settings(defaults: map<string, string>, moniker: string, renameLegacy: bool, updateGroups: bool)

  const SERVICE := "service"

  function GroupsOf(p: Project): seq<string>
  {
    if p.groups.None? then [] else p.groups.value
  }

  /** `list(set(xs))`: the same elements, each once, in some order. */
  predicate Listing(l: seq<string>, xs: seq<string>)
  {
    && (forall x :: x in l ==> x in xs)
    && (forall x :: x in xs ==> x in l)
    && (forall i, j :: 0 <= i < j < |l| ==> l[i] != l[j])
  }

  predicate Keeps(before: seq<string>, after: seq<string>)
  {
    forall x :: x in before ==> x in after
  }

  /** Every tag the project has keeps its value, every missing default is added, and so is the service. */
  ghost predicate TagsExtended(s: Settings, before: map<string, string>, after: map<string, string>)
  {
    && after.Keys == before.Keys + s.defaults.Keys + {SERVICE}
    && (forall k :: k in before ==> after[k] == before[k])
    && (forall k :: k in s.defaults && k !in before && k != SERVICE ==> after[k] == s.defaults[k])
    && (SERVICE !in before ==> after[SERVICE] == s.moniker)
  }

  /** Something is missing from the project that an update would add. */
  predicate NeedsUpdate(s: Settings, p: Project, foundByDynamicName: bool, resolved: seq<string>)
  {
    || !(s.defaults.Keys <= p.tags.Keys)
    || SERVICE !in p.tags || p.tags[SERVICE] != s.moniker
    || (!foundByDynamicName && s.renameLegacy)
    || (s.updateGroups && !Keeps(resolved, GroupsOf(p)))
  }

  class ProjectService {
    const settings: Settings
    var sent: seq<Project>   // the updates sent to the server
    var purges: nat

    constructor (settings: Settings)
      ensures this.settings == settings && sent == [] && purges == 0
    {
      this.settings, sent, purges := settings, [], 0;
    }

    /** The tags to add: missing defaults, and the service unless it is already right. */
    method NewTags(tags: map<string, string>) returns (added: map<string, string>)
      ensures TagsExtended(settings, tags, added + tags)
      ensures added == map[] <==>
        settings.defaults.Keys <= tags.Keys && SERVICE in tags && tags[SERVICE] == settings.moniker
    {
      added := map k | k in settings.defaults && k !in tags :: settings.defaults[k];
      ghost var missing := added;
      if SERVICE in tags {
        if tags[SERVICE] != settings.moniker {
          added := added[SERVICE := settings.moniker];
        }
      } else {
        added := added[SERVICE := settings.moniker];
      }
      if missing == map[] {
        assert forall k :: k in settings.defaults ==> k in tags by {
          forall k | k in settings.defaults
            ensures k in tags
          {
            assert k !in missing;
          }
        }
      } else {
        var k :| k in missing;
        assert k in added;
      }
    }

    /**
     The update part of __create_or_retrieve_project, for every pattern of server responses. At most two updates
     are sent; each keeps every original group and every existing tag value and adds what is missing. The
     group list is the server's own, duplicates and order included, unless a new group is to be added. The
     second update is sent exactly after a first failure, once the group cache has been purged, and assigns the
     freshly resolved groups even when group updates are switched off.
     */
    method Update(found: Project, foundByDynamicName: bool, dynamicName: string, resolved: seq<string>,
                  merged: seq<string>, resolvedAgain: seq<string>, mergedAgain: seq<string>,
                  firstOk: bool, secondOk: bool)
      returns (project: Project, ok: bool)
      requires Listing(merged, GroupsOf(found) + resolved) && Listing(mergedAgain, GroupsOf(found) + resolvedAgain)
      modifies this
      ensures var needs := NeedsUpdate(settings, found, foundByDynamicName, resolved);
        && |sent| == |old(sent)| + (if !needs then 0 else if firstOk then 1 else 2)
        && purges == old(purges) + (if needs && !firstOk then 1 else 0)
        && ok == (!needs || firstOk || secondOk)
      // each of these alone causes an update, and nothing else does
      ensures |sent| > |old(sent)| <==>
        || (exists k :: k in settings.defaults && k !in found.tags)
        || "service" !in found.tags
        || found.tags["service"] != settings.moniker
        || (!foundByDynamicName && settings.renameLegacy)
        || (settings.updateGroups && exists g :: g in resolved && g !in GroupsOf(found))
      ensures sent[..|old(sent)|] == old(sent)
      ensures forall i :: |old(sent)| <= i < |sent| ==>
        && Keeps(GroupsOf(found), GroupsOf(sent[i]))
        && TagsExtended(settings, found.tags, sent[i].tags)
        && sent[i].name == if !foundByDynamicName && settings.renameLegacy then dynamicName else found.name
      ensures |sent| >= |old(sent)| + 1 ==>
        sent[|old(sent)|].groups ==
          if settings.updateGroups && !Keeps(resolved, GroupsOf(found)) then Some(merged) else found.groups
      ensures |sent| == |old(sent)| + 2 ==> sent[|old(sent)| + 1].groups == Some(mergedAgain)
    {
      var execUpdate;
      project, execUpdate := Prepare(found, foundByDynamicName, dynamicName, resolved, merged);
      if !execUpdate {
        return project, true;
      }
      ok := SendWithRetry(project, mergedAgain, firstOk, secondOk);
      if !firstOk {
        project := sent[|sent| - 1];
      }
    }

    /** The project as it should be, and whether that differs from what the server has. */
    method Prepare(found: Project, foundByDynamicName: bool, dynamicName: string, resolved: seq<string>,
                   merged: seq<string>)
      returns (project: Project, execUpdate: bool)
      requires Listing(merged, GroupsOf(found) + resolved)
      ensures execUpdate <==> NeedsUpdate(settings, found, foundByDynamicName, resolved)
      ensures TagsExtended(settings, found.tags, project.tags)
      ensures project.name == if !foundByDynamicName && settings.renameLegacy then dynamicName else found.name
      ensures project.groups ==
        if settings.updateGroups && !Keeps(resolved, GroupsOf(found)) then Some(merged) else found.groups
    {
      project := found;
      execUpdate := false;
      var added := NewTags(project.tags);
      if added != map[] {
        project := project.(tags := added + project.tags);
        execUpdate := true;
      } else {
        assert added + found.tags == found.tags;
      }
      if !foundByDynamicName && settings.renameLegacy {
        execUpdate := true;
        project := project.(name := dynamicName);
      }
      if settings.updateGroups {
        var anyNew := HasNew(merged, GroupsOf(found), resolved);
        if anyNew {
          project := project.(groups := Some(merged));
          execUpdate := true;
        }
      }
    }

    /** Whether the merged list holds a group the project does not have. */
    method HasNew(merged: seq<string>, original: seq<string>, resolved: seq<string>) returns (found: bool)
      requires Listing(merged, original + resolved)
      ensures found <==> !Keeps(resolved, original)
    {
      found := false;
      for i := 0 to |merged|
        invariant forall k :: 0 <= k < i ==> merged[k] in original
      {
        if merged[i] !in original {
          assert merged[i] in original + resolved;
          return true;
        }
      }
      forall x | x in resolved ensures x in original {
        assert x in original + resolved;
        assert x in merged;
      }
    }

    /** The update loop: one retry after purging the group cache. */
    method SendWithRetry(first: Project, mergedAgain: seq<string>, firstOk: bool, secondOk: bool)
      returns (ok: bool)
      modifies this
      ensures sent == old(sent) + if firstOk then [first] else [first, first.(groups := Some(mergedAgain))]
      ensures purges == old(purges) + (if firstOk then 0 else 1)
      ensures ok == (firstOk || secondOk)
    {
      var project := first;
      var retried := false;
      while true
        invariant !retried ==> project == first && sent == old(sent) && purges == old(purges)
        invariant retried ==> !firstOk && project == first.(groups := Some(mergedAgain))
        invariant retried ==> sent == old(sent) + [first] && purges == old(purges) + 1
        decreases !retried
      {
        sent := sent + [project];
        ok := if retried then secondOk else firstOk;
        if ok {
          break;
        } else if !retried {
          purges := purges + 1;
          project := project.(groups := Some(mergedAgain));
        }
        if retried {
          break;
        } else {
          retried := true;
        }
      }
    }
  }

  /**
   The service tag sent is the configured moniker exactly when the project had none or already had that one:
   an existing tag wins over the one meant to replace it.
   */
  lemma ServiceTagSent(s: Settings, before: map<string, string>, after: map<string, string>)
    requires TagsExtended(s, before, after)
    ensures after[SERVICE] == s.moniker <==> SERVICE !in before || before[SERVICE] == s.moniker
  {
  }

  /** The extension is determined: any two tag maps meeting it are equal. */
  lemma TagsExtendedUnique(s: Settings, before: map<string, string>, a: map<string, string>, b: map<string, string>)
    requires TagsExtended(s, before, a) && TagsExtended(s, before, b)
    ensures a == b
  {
    assert a.Keys == b.Keys;
  }

  /**
   When an update settles matters: with the groups and the name settled, the project as sent needs no further
   update iff it had no service tag or the right one. One with another moniker's tag is updated every time.
   */
  lemma UpdateSettlesIff(s: Settings, found: Project, sent: Project, foundByDynamicName: bool, resolved: seq<string>)
    requires TagsExtended(s, found.tags, sent.tags)
    requires foundByDynamicName || !s.renameLegacy
    requires s.updateGroups ==> Keeps(resolved, GroupsOf(sent))
    ensures !NeedsUpdate(s, sent, foundByDynamicName, resolved) <==>
      SERVICE !in found.tags || found.tags[SERVICE] == s.moniker
  {
    ServiceTagSent(s, found.tags, sent.tags);
  }
}
