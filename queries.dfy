/**
 * What the store's queries return, stated over the tables as values: the
 * `begins_with` lookup of `get_project`, the newest-first `Limit` queries over
 * events, and the listing of every item a secondary index selects.
 */
module Queries {
  import opened Wrappers
  import opened Text
  import opened Items
  import opened Keys

  function Min(a: int, b: int): int { if a <= b then a else b }

  // ---------------------------------------------------------------- projects

  /** The key condition of `get_project`: same tenant, sort key begins with `project_id#`. */
  predicate MatchesProject(k: ProjectKey, organizationId: string, projectId: string) {
    k.organizationId == organizationId && StartsWith(k.projectIdCreatedAt, projectId + "#")
  }

  predicate ProjectExists(projects: map<ProjectKey, Item>, organizationId: string, projectId: string) {
    exists k | k in projects :: MatchesProject(k, organizationId, projectId)
  }

  /** `k` is the first match in sort-key order, which `Limit=1` returns. */
  ghost predicate IsFirstProjectMatch(projects: map<ProjectKey, Item>, organizationId: string, projectId: string, k: ProjectKey) {
    && k in projects
    && MatchesProject(k, organizationId, projectId)
    && forall k2 :: k2 in projects && MatchesProject(k2, organizationId, projectId) ==>
         LexLe(k.projectIdCreatedAt, k2.projectIdCreatedAt)
  }

  /** A finite non-empty set of matches has a first one. */
  lemma {:induction false} FirstMatchExists(projects: map<ProjectKey, Item>, organizationId: string, projectId: string, s: set<ProjectKey>)
    requires s <= projects.Keys && s != {}
    requires forall k :: k in s ==> MatchesProject(k, organizationId, projectId)
    ensures exists k :: k in s && forall k2 :: k2 in s ==> LexLe(k.projectIdCreatedAt, k2.projectIdCreatedAt)
    decreases s
  {
    var x :| x in s;
    if s - {x} == {} {
      assert s == {x};
      assert forall k2 :: k2 in s ==> LexLe(x.projectIdCreatedAt, k2.projectIdCreatedAt) by {
        forall k2 | k2 in s ensures LexLe(x.projectIdCreatedAt, k2.projectIdCreatedAt) {
          assert k2 == x;
          LexLeReflexive(x.projectIdCreatedAt);
        }
      }
    } else {
      FirstMatchExists(projects, organizationId, projectId, s - {x});
      var m :| m in s - {x} && forall k2 :: k2 in s - {x} ==> LexLe(m.projectIdCreatedAt, k2.projectIdCreatedAt);
      LexLeTotal(m.projectIdCreatedAt, x.projectIdCreatedAt);
      if LexLe(m.projectIdCreatedAt, x.projectIdCreatedAt) {
        assert forall k2 :: k2 in s ==> LexLe(m.projectIdCreatedAt, k2.projectIdCreatedAt);
      } else {
        forall k2 | k2 in s ensures LexLe(x.projectIdCreatedAt, k2.projectIdCreatedAt) {
          if k2 != x {
            LexLeTransitive(x.projectIdCreatedAt, m.projectIdCreatedAt, k2.projectIdCreatedAt);
          } else {
            LexLeReflexive(x.projectIdCreatedAt);
          }
        }
      }
    }
  }

  /** What `get_project` finds: the first matching key, or none. */
  ghost function FirstProjectKey(projects: map<ProjectKey, Item>, organizationId: string, projectId: string): (r: Option<ProjectKey>)
    ensures r.Some? <==> ProjectExists(projects, organizationId, projectId)
    ensures r.Some? ==> IsFirstProjectMatch(projects, organizationId, projectId, r.value)
  {
    if ProjectExists(projects, organizationId, projectId) then
      var s := set k | k in projects && MatchesProject(k, organizationId, projectId);
      var w :| w in projects && MatchesProject(w, organizationId, projectId);
      assert w in s;
      FirstMatchExists(projects, organizationId, projectId, s);
      var k :| k in s && forall k2 :: k2 in s ==> LexLe(k.projectIdCreatedAt, k2.projectIdCreatedAt);
      Some(k)
    else
      None
  }

  /** The first match is unique, so `get_project` is deterministic. */
  lemma FirstProjectMatchUnique(projects: map<ProjectKey, Item>, organizationId: string, projectId: string, k1: ProjectKey, k2: ProjectKey)
    requires IsFirstProjectMatch(projects, organizationId, projectId, k1)
    requires IsFirstProjectMatch(projects, organizationId, projectId, k2)
    ensures k1 == k2
  {
    LexLeAntisymmetric(k1.projectIdCreatedAt, k2.projectIdCreatedAt);
  }

  /** The match with the smallest sort key, which `Limit=1` returns. */
  method FirstInSortOrder(matches: set<ProjectKey>) returns (first: ProjectKey)
    requires matches != {}
    ensures first in matches
    ensures forall k :: k in matches ==> LexLe(first.projectIdCreatedAt, k.projectIdCreatedAt)
  {
    first :| first in matches;
    LexLeReflexive(first.projectIdCreatedAt);
    var rest := matches - {first};
    while rest != {}
      invariant rest <= matches && first in matches
      invariant forall k :: k in matches - rest ==> LexLe(first.projectIdCreatedAt, k.projectIdCreatedAt)
      decreases rest
    {
      var k :| k in rest;
      if !LexLe(first.projectIdCreatedAt, k.projectIdCreatedAt) {
        LexLeTotal(first.projectIdCreatedAt, k.projectIdCreatedAt);
        forall k2 | k2 in matches - rest
          ensures LexLe(k.projectIdCreatedAt, k2.projectIdCreatedAt)
        {
          LexLeTransitive(k.projectIdCreatedAt, first.projectIdCreatedAt, k2.projectIdCreatedAt);
        }
        LexLeReflexive(k.projectIdCreatedAt);
        first := k;
      }
      rest := rest - {k};
    }
  }

  // ------------------------------------------------------- ordered listings

  /**
   * `keys` is what a descending `Limit=limit` query over `cands` returns, `ts`
   * being the range key: no repeats, at most `limit`, newest first, and every
   * key left out is no newer than every key returned.
   */
  ghost predicate NewestFirst<K>(cands: set<K>, ts: K -> int, limit: nat, keys: seq<K>) {
    && |keys| == Min(limit, |cands|)
    && (forall i :: 0 <= i < |keys| ==> keys[i] in cands)
    && (forall i, j :: 0 <= i < j < |keys| ==> keys[i] != keys[j])
    && (forall i, j :: 0 <= i < j < |keys| ==> ts(keys[i]) >= ts(keys[j]))
    && (forall k, i :: k in cands && k !in keys && 0 <= i < |keys| ==> ts(k) <= ts(keys[i]))
  }

  /** `keys` lists every key of `cands` once, in no particular order. */
  ghost predicate ListsEachOnce<K>(cands: set<K>, keys: seq<K>) {
    && |keys| == |cands|
    && (forall i :: 0 <= i < |keys| ==> keys[i] in cands)
    && (forall i, j :: 0 <= i < j < |keys| ==> keys[i] != keys[j])
    && (forall k :: k in cands ==> k in keys)
  }

  /** A key of `cands` with the greatest range key. */
  method Newest<K>(cands: set<K>, ts: K -> int) returns (best: K)
    requires cands != {}
    ensures best in cands
    ensures forall k :: k in cands ==> ts(k) <= ts(best)
  {
    best :| best in cands;
    var rest := cands - {best};
    while rest != {}
      invariant rest <= cands && best in cands
      invariant forall k :: k in cands - rest ==> ts(k) <= ts(best)
      decreases rest
    {
      var k :| k in rest;
      if ts(k) > ts(best) {
        best := k;
      }
      rest := rest - {k};
    }
  }

  lemma DistinctSeqSize<K>(keys: seq<K>)
    requires forall i, j :: 0 <= i < j < |keys| ==> keys[i] != keys[j]
    ensures |set i | 0 <= i < |keys| :: keys[i]| == |keys|
  {
    if |keys| > 0 {
      var init := keys[..|keys| - 1];
      DistinctSeqSize(init);
      var s := set i | 0 <= i < |init| :: init[i];
      assert (set i | 0 <= i < |keys| :: keys[i]) == s + {keys[|keys| - 1]};
      assert keys[|keys| - 1] !in s;
    }
  }

  /** Selects newest first until `limit` keys are taken or none are left. */
  method SelectNewestFirst<K>(cands: set<K>, ts: K -> int, limit: nat) returns (keys: seq<K>)
    ensures NewestFirst(cands, ts, limit, keys)
  {
    keys := [];
    var rest := cands;
    while |keys| < limit && rest != {}
      invariant rest <= cands
      invariant forall k :: k in cands ==> (k in rest <==> k !in keys)
      invariant forall i :: 0 <= i < |keys| ==> keys[i] in cands
      invariant forall i, j :: 0 <= i < j < |keys| ==> keys[i] != keys[j]
      invariant forall i, j :: 0 <= i < j < |keys| ==> ts(keys[i]) >= ts(keys[j])
      invariant forall k, i :: k in rest && 0 <= i < |keys| ==> ts(k) <= ts(keys[i])
      invariant |keys| + |rest| == |cands|
      invariant |keys| <= limit
      decreases rest
    {
      var k := Newest(rest, ts);
      keys := keys + [k];
      rest := rest - {k};
    }
  }

  /** Lists a set in some order, each element once. */
  method ListAll<K>(cands: set<K>) returns (keys: seq<K>)
    ensures ListsEachOnce(cands, keys)
  {
    keys := [];
    var rest := cands;
    while rest != {}
      invariant rest <= cands
      invariant forall k :: k in cands ==> (k in rest <==> k !in keys)
      invariant forall i :: 0 <= i < |keys| ==> keys[i] in cands
      invariant forall i, j :: 0 <= i < j < |keys| ==> keys[i] != keys[j]
      invariant |keys| + |rest| == |cands|
      decreases rest
    {
      var k :| k in rest;
      keys := keys + [k];
      rest := rest - {k};
    }
  }

  /** `keys` lists every key of `cands` once, oldest first (an ascending query). */
  ghost predicate OldestFirst<K>(cands: set<K>, ts: K -> int, keys: seq<K>) {
    && ListsEachOnce(cands, keys)
    && (forall i, j :: 0 <= i < j < |keys| ==> ts(keys[i]) <= ts(keys[j]))
  }

  function Reverse<K>(s: seq<K>): (r: seq<K>)
    ensures |r| == |s|
    ensures forall i :: 0 <= i < |s| ==> r[i] == s[|s| - 1 - i]
  {
    seq(|s|, i requires 0 <= i < |s| => s[|s| - 1 - i])
  }

  /** A repetition-free listing drawn from `cands` and as long as it covers it. */
  lemma DistinctListingCovers<K>(cands: set<K>, keys: seq<K>)
    requires |keys| == |cands|
    requires forall i :: 0 <= i < |keys| ==> keys[i] in cands
    requires forall i, j :: 0 <= i < j < |keys| ==> keys[i] != keys[j]
    ensures forall k :: k in cands ==> k in keys
  {
    DistinctSeqSize(keys);
    var listed := set i | 0 <= i < |keys| :: keys[i];
    var missing := cands - listed;
    assert cands == listed + missing && listed * missing == {};
    assert |missing| == 0;
    forall k | k in cands ensures k in keys {
      assert k in listed;
    }
  }

  /**
   * A newest-first listing with no limit that binds is the whole partition, and
   * read backwards it is the ascending listing.
   */
  lemma NewestFirstReversed<K>(cands: set<K>, ts: K -> int, keys: seq<K>)
    requires NewestFirst(cands, ts, |cands|, keys)
    ensures OldestFirst(cands, ts, Reverse(keys))
  {
    DistinctListingCovers(cands, keys);
    var rev := Reverse(keys);
    var n := |keys|;
    forall k | k in cands ensures k in rev {
      var i :| 0 <= i < n && keys[i] == k;
      assert rev[n - 1 - i] == k;
    }
    forall i, j | 0 <= i < j < n ensures rev[i] != rev[j] && ts(rev[i]) <= ts(rev[j]) {
      assert rev[i] == keys[n - 1 - i] && rev[j] == keys[n - 1 - j];
    }
  }

  function ItemsAt<K>(table: map<K, Item>, keys: seq<K>): (r: seq<Item>)
    requires forall i :: 0 <= i < |keys| ==> keys[i] in table
    ensures |r| == |keys|
    ensures forall i :: 0 <= i < |keys| ==> r[i] == table[keys[i]]
  {
    seq(|keys|, i requires 0 <= i < |keys| => table[keys[i]])
  }

  // ------------------------------------------------------------------ events

  function EventTs(k: EventKey): int { k.eventTimestamp }

  function UsageTs(k: UsageKey): int { k.timestamp }

  /** The partition `organization_id#project_id` of one project's events. */
  function ProjectEventKeys(events: map<EventKey, Item>, organizationId: string, projectId: string): set<EventKey> {
    set k | k in events && k.organizationIdProjectId == EventPartition(organizationId, projectId)
  }

  /** What the tenant-wide index `organization_id-index` holds for one tenant. */
  function OrganizationEventKeys(events: map<EventKey, Item>, organizationId: string): set<EventKey> {
    set k | k in events && Get(events[k], ORGANIZATION_ID) == Str(organizationId)
  }

  /**
   * Within one partition the timestamp is the whole rest of the key, so a
   * newest-first listing of one project's events is strictly decreasing.
   */
  lemma {:induction false} ProjectEventsStrictlyNewestFirst(events: map<EventKey, Item>, organizationId: string, projectId: string, limit: nat, keys: seq<EventKey>)
    requires NewestFirst(ProjectEventKeys(events, organizationId, projectId), EventTs, limit, keys)
    ensures forall i, j :: 0 <= i < j < |keys| ==> keys[i].eventTimestamp > keys[j].eventTimestamp
  {
    forall i, j | 0 <= i < j < |keys|
      ensures keys[i].eventTimestamp > keys[j].eventTimestamp
    {
      assert keys[i] != keys[j];
      assert EventTs(keys[i]) >= EventTs(keys[j]);
      assert keys[i].organizationIdProjectId == keys[j].organizationIdProjectId;
    }
  }
}
