/**
 * The key layout of the five tables: which attributes form each table's key,
 * how the composite keys are spelled, and how generated identifiers look.
 */
module Keys {
  import opened Wrappers
  import opened Text
  import opened Items

  /** Projects: partition `organization_id`, sort `project_id#created_at`. */
  datatype ProjectKey = ProjectKey(organizationId: string, projectIdCreatedAt: string)

  /** Events: partition `organization_id#project_id`, sort `event_timestamp`. */
  datatype EventKey = EventKey(organizationIdProjectId: string, eventTimestamp: int)

  /** Usage: partition `organization_id#date`, sort `timestamp`. */
  datatype UsageKey = UsageKey(organizationIdDate: string, timestamp: int)

  /** Two identifiers joined by `#`. */
  function Composite(a: string, b: string): (r: string)
    ensures |r| == |a| + |b| + 1 && r[|a|] == '#'
    ensures StartsWith(r, a + "#")
  {
    a + "#" + b
  }

  function ProjectSortKey(projectId: string, createdAt: nat): string {
    Composite(projectId, NatToString(createdAt))
  }

  function EventPartition(organizationId: string, projectId: string): string {
    Composite(organizationId, projectId)
  }

  function UsagePartition(organizationId: string, date: string): string {
    Composite(organizationId, date)
  }

  /** A list or map used as a project id, whose `repr` the model does not render. */
  const UNRENDERED_ID := TypeError("project_id is a list or a map")

  /**
   * The text an f-string puts in place of a project id, which is `str` of the
   * value. A list or map, whose text would be its `repr`, has none here.
   */
  function IdText(v: Value): (r: Option<string>)
    ensures v.Str? ==> r == Some(v.s)
    ensures v.Num? ==> r == Some(IntText(v.n))
    ensures r.None? <==> v.List? || v.Record?
  {
    match v
    case Str(s) => Some(s)
    case Num(n) => Some(IntText(n))
    case Bool(b) => Some(if b then "True" else "False")
    case Null => Some("None")
    case _ => None
  }

  /** When the first part has no `#`, the composite determines both parts. */
  lemma CompositeInjective(a1: string, b1: string, a2: string, b2: string)
    requires '#' !in a1 && '#' !in a2
    requires Composite(a1, b1) == Composite(a2, b2)
    ensures a1 == a2 && b1 == b2
  {
    var c := Composite(a1, b1);
    if |a1| < |a2| {
      assert false;
    } else if |a2| < |a1| {
      assert false;
    }
    assert a1 == c[..|a1|] == a2;
    assert b1 == c[|a1| + 1..] == b2;
  }

  /**
   * Without that condition two tenants can share an event partition: an
   * organization id `A#B` with project `C` and organization `A` with project `B#C`.
   */
  lemma CompositeCollision()
    ensures Composite("A#B", "C") == Composite("A", "B#C")
  {
  }

  /**
   * The prefix `project_id + "#"` used by `get_project` selects exactly the
   * projects with that id when ids contain no `#`.
   */
  lemma PrefixSelectsProject(wanted: string, stored: string, createdAt: nat)
    requires '#' !in wanted && '#' !in stored
    ensures StartsWith(ProjectSortKey(stored, createdAt), wanted + "#") <==> wanted == stored
  {
    var key := ProjectSortKey(stored, createdAt);
    if StartsWith(key, wanted + "#") {
      assert key[|wanted|] == '#';
      assert forall i :: 0 <= i < |stored| ==> key[i] == stored[i] != '#';
      assert forall i :: 0 <= i < |wanted| ==> key[i] == wanted[i] != '#';
      assert |wanted| == |stored|;
      assert wanted == key[..|wanted|] == stored;
    }
  }

  /** A project sort key names one project id and one creation time. */
  lemma ProjectSortKeyInjective(p1: string, t1: nat, p2: string, t2: nat)
    requires '#' !in p1 && '#' !in p2
    requires ProjectSortKey(p1, t1) == ProjectSortKey(p2, t2)
    ensures p1 == p2 && t1 == t2
  {
    CompositeInjective(p1, NatToString(t1), p2, NatToString(t2));
    NatToStringInjective(t1, t2);
  }

  predicate IsHexDigit(c: char) {
    IsDigit(c) || ('a' <= c <= 'f')
  }

  /** The leading characters of `uuid4().hex`: lower-case hexadecimal. */
  predicate IsHexString(s: string, length: nat) {
    |s| == length && forall i :: 0 <= i < |s| ==> IsHexDigit(s[i])
  }

  /** `f"PROJ-{uuid.uuid4().hex[:8]}"`, the hex digits given. */
  function NewProjectId(hex: string): (r: string)
    requires IsHexString(hex, 8)
    ensures |r| == 13 && StartsWith(r, "PROJ-") && '#' !in r
  {
    var r := "PROJ-" + hex;
    assert forall i :: 0 <= i < |r| ==> r[i] != '#' by {
      forall i | 0 <= i < |r| ensures r[i] != '#' {
        if i >= 5 { assert r[i] == hex[i - 5]; }
      }
    }
    r
  }

  /** `f"ORG-{uuid.uuid4().hex[:12]}"`, the hex digits given. */
  function NewOrganizationId(hex: string): (r: string)
    requires IsHexString(hex, 12)
    ensures |r| == 16 && StartsWith(r, "ORG-") && '#' !in r
  {
    var r := "ORG-" + hex;
    assert forall i :: 0 <= i < |r| ==> r[i] != '#' by {
      forall i | 0 <= i < |r| ensures r[i] != '#' {
        if i >= 4 { assert r[i] == hex[i - 4]; }
      }
    }
    r
  }

  // The store reads each item's key from the item's own attributes; a key
  // attribute that is missing, of the wrong kind or an empty string makes the
  // write fail, and so does an empty string given as a key to look up.

  const ORGANIZATION_ID := "organization_id"
  const PROJECT_ID_CREATED_AT := "project_id_created_at"
  const ORGANIZATION_ID_PROJECT_ID := "organization_id_project_id"
  const EVENT_TIMESTAMP := "event_timestamp"
  const ORGANIZATION_ID_DATE := "organization_id_date"
  const TIMESTAMP := "timestamp"
  const USER_EMAIL := "user_email"

  /** The string of a string key attribute: present, a string, and not empty. */
  function KeyText(item: Item, name: string): (r: Option<string>)
    ensures r.Some? <==> name in item && item[name].Str? && item[name].s != ""
    ensures r.Some? ==> item[name] == Str(r.value) && r.value != ""
  {
    if name in item && item[name].Str? && item[name].s != "" then Some(item[name].s) else None
  }

  /**
   * A string attribute some secondary index is keyed on: the item may leave it
   * out (and stays out of that index), but a value it has must be a non-empty string.
   */
  predicate IndexableText(item: Item, name: string) {
    name !in item || (item[name].Str? && item[name].s != "")
  }

  function OrganizationKeyOf(item: Item): (r: Option<string>)
    ensures r.Some? <==> KeyText(item, ORGANIZATION_ID).Some?
    ensures r.Some? ==> item[ORGANIZATION_ID] == Str(r.value) && r.value != ""
  {
    KeyText(item, ORGANIZATION_ID)
  }

  function ProjectKeyOf(item: Item): (r: Option<ProjectKey>)
    ensures r.Some? <==> KeyText(item, ORGANIZATION_ID).Some? && KeyText(item, PROJECT_ID_CREATED_AT).Some?
    ensures r.Some? ==> (item[ORGANIZATION_ID] == Str(r.value.organizationId)
                      && item[PROJECT_ID_CREATED_AT] == Str(r.value.projectIdCreatedAt))
    ensures r.Some? ==> r.value.organizationId != "" && r.value.projectIdCreatedAt != ""
  {
    match (KeyText(item, ORGANIZATION_ID), KeyText(item, PROJECT_ID_CREATED_AT))
    case (Some(o), Some(s)) => Some(ProjectKey(o, s))
    case _ => None
  }

  /** A project whose tenant id is empty, or not a string, has no key: the store refuses it. */
  lemma EmptyTenantRefused(item: Item)
    requires ORGANIZATION_ID !in item || item[ORGANIZATION_ID] == Str("") || !item[ORGANIZATION_ID].Str?
    ensures ProjectKeyOf(item).None? && OrganizationKeyOf(item).None?
  {
  }

  function EventKeyOf(item: Item): (r: Option<EventKey>)
    ensures r.Some? <==> KeyText(item, ORGANIZATION_ID_PROJECT_ID).Some? && NumAttr(item, EVENT_TIMESTAMP).Some?
    ensures r.Some? ==> (item[ORGANIZATION_ID_PROJECT_ID] == Str(r.value.organizationIdProjectId)
                      && item[EVENT_TIMESTAMP] == Num(r.value.eventTimestamp))
  {
    match (KeyText(item, ORGANIZATION_ID_PROJECT_ID), NumAttr(item, EVENT_TIMESTAMP))
    case (Some(p), Some(t)) => Some(EventKey(p, t))
    case _ => None
  }

  function UsageKeyOf(item: Item): (r: Option<UsageKey>)
    ensures r.Some? <==> KeyText(item, ORGANIZATION_ID_DATE).Some? && NumAttr(item, TIMESTAMP).Some?
    ensures r.Some? ==> (item[ORGANIZATION_ID_DATE] == Str(r.value.organizationIdDate)
                      && item[TIMESTAMP] == Num(r.value.timestamp))
  {
    match (KeyText(item, ORGANIZATION_ID_DATE), NumAttr(item, TIMESTAMP))
    case (Some(p), Some(t)) => Some(UsageKey(p, t))
    case _ => None
  }

  function UserKeyOf(item: Item): (r: Option<string>)
    ensures r.Some? <==> KeyText(item, USER_EMAIL).Some?
    ensures r.Some? ==> item[USER_EMAIL] == Str(r.value) && r.value != ""
  {
    KeyText(item, USER_EMAIL)
  }
}
