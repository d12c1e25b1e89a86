/**
 * `DynamoDBClient`: the five tables of the multi-tenant store held as maps from
 * key to item, and the organization, project, event, user and usage operations
 * over them. The wall clock and the random identifiers are parameters; an item's
 * key is read from the item's own key attributes, as the database does.
 */
module Store {
  import opened Wrappers
  import opened Text
  import opened Items
  import opened Keys
  import opened Queries
  import opened Usage

  const CREATED_AT := "created_at"
  const UPDATED_AT := "updated_at"
  const STATUS := "status"
  const PROJECT_ID := "project_id"
  const CLIENT_EMAIL := "client_email"
  const EMAIL_ADDRESS := "email_address"
  const SUBDOMAIN := "subdomain"
  const ROLE := "role"
  const EVENT_ID := "event_id"
  const DATE := "date"
  const TTL := "ttl"
  const MONTHLY_API_BUDGET := "monthly_api_budget"
  const CURRENT_MONTH_SPEND := "current_month_spend"

  /** What the store raises for an empty string given where a key value is expected. */
  const EMPTY_KEY := ValidationError("The AttributeValue for a key attribute cannot contain an empty string value")
  /** What the store raises for an index key attribute that is empty or not a string. */
  const BAD_INDEX_KEY := ValidationError("A value specified for a secondary index key is not supported")

  /** Milliseconds in a day. */
  const DAY_MS := 86400000
  /** Usage records expire 90 days after they are written (in seconds). */
  const USAGE_TTL_SECONDS := 90 * 24 * 60 * 60

  // The fields each `create_*` writes before spreading the caller's data over them.

  function OrganizationDefaults(organizationId: string, now: nat): Item {
    map[ORGANIZATION_ID := Str(organizationId), CREATED_AT := Num(now), UPDATED_AT := Num(now),
        "subscription_tier" := Str("starter"), "billing_status" := Str("active"),
        MONTHLY_API_BUDGET := Num(2000), CURRENT_MONTH_SPEND := Num(0)]
  }

  // Before a put, the write path serialises every Python value, and it refuses
  // a binary `float`: numbers must be `int` or `Decimal`.

  /** What the serializer raises for a `float`. */
  const FLOAT_REFUSED := TypeError("Float types are not supported. Use Decimal types instead.")

  /** A money amount, in cents, as a Python literal writes it: exact (`int` or `Decimal`), or a `float`. */
  datatype Amount = Exact(cents: int) | Float(cents: int)

  /** The serializer on money fields: any `float` is refused, otherwise each amount is stored as its number. */
  function SerializeAmounts(fields: map<string, Amount>): (r: Result<Item, Error>)
    ensures r.Err? <==> exists f :: f in fields && fields[f].Float?
    ensures r.Err? ==> r.error == FLOAT_REFUSED
    ensures r.Ok? ==> r.value.Keys == fields.Keys && forall f :: f in fields ==> r.value[f] == Num(fields[f].cents)
  {
    if exists f :: f in fields && fields[f].Float? then Err(FLOAT_REFUSED)
    else Ok(map f | f in fields :: Num(fields[f].cents))
  }

  /** `create_organization`'s money defaults as written: the floats `20.0` and `0.0`. */
  function OrganizationAmountsAsWritten(): map<string, Amount> {
    map[MONTHLY_API_BUDGET := Float(2000), CURRENT_MONTH_SPEND := Float(0)]
  }

  /** The same defaults as exact amounts. */
  function OrganizationAmounts(): map<string, Amount> {
    map[MONTHLY_API_BUDGET := Exact(2000), CURRENT_MONTH_SPEND := Exact(0)]
  }

  /**
   * As written, a new organization's put is refused unless the caller's data
   * replaces both float defaults and brings no float of its own.
   */
  lemma AsWrittenOrganizationRefused(data: map<string, Amount>)
    ensures SerializeAmounts(OrganizationAmountsAsWritten() + data).Ok? <==>
      MONTHLY_API_BUDGET in data && CURRENT_MONTH_SPEND in data && forall f :: f in data ==> data[f].Exact?
  {
    var all := OrganizationAmountsAsWritten() + data;
    if MONTHLY_API_BUDGET !in data {
      assert all[MONTHLY_API_BUDGET].Float?;
    } else if CURRENT_MONTH_SPEND !in data {
      assert all[CURRENT_MONTH_SPEND].Float?;
    } else {
      assert forall f :: f in all ==> f in data && all[f] == data[f];
    }
  }

  /** With exact amounts, the defaults serialise to exactly the money `OrganizationDefaults` stores. */
  lemma OrganizationAmountsStored(organizationId: string, now: nat)
    ensures var r := SerializeAmounts(OrganizationAmounts());
      && r.Ok?
      && forall f :: f in r.value ==> f in OrganizationDefaults(organizationId, now)
                                      && OrganizationDefaults(organizationId, now)[f] == r.value[f]
  {
    assert forall f :: f in OrganizationAmounts() ==> OrganizationAmounts()[f].Exact?;
  }

  function ProjectDefaults(organizationId: string, projectId: string, now: nat): Item {
    map[ORGANIZATION_ID := Str(organizationId), PROJECT_ID := Str(projectId),
        PROJECT_ID_CREATED_AT := Str(ProjectSortKey(projectId, now)),
        CREATED_AT := Num(now), UPDATED_AT := Num(now), STATUS := Str("active")]
  }

  /** The project id is stored as it was given; only the partition key spells it out as text. */
  function EventDefaults(organizationId: string, projectId: Value, eventId: string, now: nat): Item
    requires IdText(projectId).Some?
  {
    map[ORGANIZATION_ID := Str(organizationId), PROJECT_ID := projectId,
        ORGANIZATION_ID_PROJECT_ID := Str(EventPartition(organizationId, IdText(projectId).value)),
        EVENT_TIMESTAMP := Num(now), EVENT_ID := Str(eventId)]
  }

  function UserDefaults(now: nat): Item {
    map[CREATED_AT := Num(now), ROLE := Str("viewer")]
  }

  /** The usage record's own fields; `now` is in milliseconds, `ttl` in whole seconds. */
  function UsageDefaults(organizationId: string, date: string, now: nat): Item {
    map[ORGANIZATION_ID := Str(organizationId), ORGANIZATION_ID_DATE := Str(UsagePartition(organizationId, date)),
        TIMESTAMP := Num(now), DATE := Str(date), TTL := Num(now / 1000 + USAGE_TTL_SECONDS)]
  }

  // The attributes each table's secondary indexes are keyed on, besides the
  // table's own key attributes.

  /** `email_address-index` and `subdomain-index`. */
  predicate OrganizationIndexed(item: Item) {
    IndexableText(item, EMAIL_ADDRESS) && IndexableText(item, SUBDOMAIN)
  }

  /** `client_email-index` and `organization_id-status-index`. */
  predicate ProjectIndexed(item: Item) {
    IndexableText(item, CLIENT_EMAIL) && IndexableText(item, STATUS)
  }

  /** The `organization_id-index` of the events, users and usage tables. */
  predicate TenantIndexed(item: Item) {
    IndexableText(item, ORGANIZATION_ID)
  }

  /**
   * A new project stores one item under `project_id#created_at`, active, with
   * equal creation and update times, unless the caller's data says otherwise.
   */
  lemma NewProjectItem(organizationId: string, hex: string, now: nat, data: Item)
    requires organizationId != "" && IsHexString(hex, 8)
    requires ORGANIZATION_ID !in data && PROJECT_ID !in data && PROJECT_ID_CREATED_AT !in data
    requires CREATED_AT !in data && UPDATED_AT !in data && STATUS !in data
    ensures var pid := NewProjectId(hex);
            var item := Merge(ProjectDefaults(organizationId, pid, now), data);
            && ProjectKeyOf(item) == Some(ProjectKey(organizationId, pid + "#" + NatToString(now)))
            && item[STATUS] == Str("active")
            && item[CREATED_AT] == item[UPDATED_AT] == Num(now)
            && item[PROJECT_ID] == Str(pid)
            && (ProjectIndexed(item) <==> IndexableText(data, CLIENT_EMAIL))
  {
    var pid := NewProjectId(hex);
    var item := Merge(ProjectDefaults(organizationId, pid, now), data);
    assert item[ORGANIZATION_ID] == Str(organizationId);
    assert item[PROJECT_ID_CREATED_AT] == Str(ProjectSortKey(pid, now));
    assert item[STATUS] == Str("active");
    assert CLIENT_EMAIL !in ProjectDefaults(organizationId, pid, now);
  }

  /**
   * Two events of one project written in the same millisecond get the same
   * key, so the second replaces the first.
   */
  lemma SameMillisecondEventsShareKey(organizationId: string, projectId: Value, id1: string, id2: string, now: nat, d1: Item, d2: Item)
    requires IdText(projectId).Some?
    requires ORGANIZATION_ID_PROJECT_ID !in d1 && EVENT_TIMESTAMP !in d1
    requires ORGANIZATION_ID_PROJECT_ID !in d2 && EVENT_TIMESTAMP !in d2
    ensures EventKeyOf(Merge(EventDefaults(organizationId, projectId, id1, now), d1)).Some?
    ensures EventKeyOf(Merge(EventDefaults(organizationId, projectId, id1, now), d1))
         == EventKeyOf(Merge(EventDefaults(organizationId, projectId, id2, now), d2))
  {
  }

  /** Projects of one tenant; with a non-empty status, only those in that status. */
  function OrganizationProjectKeys(projects: map<ProjectKey, Item>, organizationId: string, status: Option<string>): set<ProjectKey> {
    set k | k in projects && k.organizationId == organizationId
                          && (status.None? || status.value == "" || Get(projects[k], STATUS) == Str(status.value))
  }

  /** The index `client_email-index`: every tenant's projects for one client. */
  function ClientProjectKeys(projects: map<ProjectKey, Item>, clientEmail: string): set<ProjectKey> {
    set k | k in projects && Get(projects[k], CLIENT_EMAIL) == Str(clientEmail)
  }

  /** The users table's `organization_id-index`. */
  function OrganizationUserKeys(users: map<string, Item>, organizationId: string): set<string> {
    set k | k in users && Get(users[k], ORGANIZATION_ID) == Str(organizationId)
  }

  /** One day's usage partition of a tenant. */
  function UsageDayKeys(usage: map<UsageKey, Item>, organizationId: string, date: string): set<UsageKey> {
    set k | k in usage && k.organizationIdDate == UsagePartition(organizationId, date)
  }

  /** The usage `organization_id-index` from `start` (milliseconds) on. */
  function UsageSinceKeys(usage: map<UsageKey, Item>, organizationId: string, start: int): set<UsageKey> {
    set k | k in usage && Get(usage[k], ORGANIZATION_ID) == Str(organizationId) && k.timestamp >= start
  }

  /** Some item of `table` whose attribute `name` is `v`, as a `Limit=1` index query returns. */
  method FindByAttribute<K>(table: map<K, Item>, name: string, v: Value) returns (r: Option<Item>)
    ensures r.Some? <==> exists k :: k in table && Get(table[k], name) == v
    ensures r.Some? ==> r.value in table.Values && Get(r.value, name) == v
  {
    if exists k :: k in table && Get(table[k], name) == v {
      var k :| k in table && Get(table[k], name) == v;
      r := Some(table[k]);
    } else {
      r := None;
    }
  }

  /** `UpdateItem` with `SET` on every field of `updates`: an absent item is created from its key. */
  function Upsert<K>(table: map<K, Item>, k: K, keyAttrs: Item, updates: Item): (r: map<K, Item>)
    ensures r.Keys == table.Keys + {k}
    ensures forall k2 :: k2 in table && k2 != k ==> r[k2] == table[k2]
    ensures k in table ==> r[k] == Merge(table[k], updates)
    ensures k !in table ==> r[k] == Merge(keyAttrs, updates)
  {
    table[k := Merge(if k in table then table[k] else keyAttrs, updates)]
  }

  ghost predicate OrganizationsKeyed(table: map<string, Item>) {
    forall k :: k in table ==> OrganizationKeyOf(table[k]) == Some(k)
  }

  ghost predicate ProjectsKeyed(table: map<ProjectKey, Item>) {
    forall k :: k in table ==> ProjectKeyOf(table[k]) == Some(k)
  }

  ghost predicate EventsKeyed(table: map<EventKey, Item>) {
    forall k :: k in table ==> EventKeyOf(table[k]) == Some(k)
  }

  ghost predicate UsersKeyed(table: map<string, Item>) {
    forall k :: k in table ==> UserKeyOf(table[k]) == Some(k)
  }

  ghost predicate UsageKeyed(table: map<UsageKey, Item>) {
    forall k :: k in table ==> UsageKeyOf(table[k]) == Some(k)
  }

  /**
   * How `update_item` on the existing project `k` ends: setting a key
   * attribute or an index attribute to an empty or non-string value is a
   * `ValidationError` and writes nothing; otherwise exactly those fields change.
   */
  ghost predicate PatchedAt(before: map<ProjectKey, Item>, after: map<ProjectKey, Item>, k: ProjectKey, updatesAfter: Item, r: Result<(), Error>)
    requires k in before
  {
    if ORGANIZATION_ID in updatesAfter || PROJECT_ID_CREATED_AT in updatesAfter || !ProjectIndexed(updatesAfter) then
      r.Err? && r.error.ValidationError? && after == before
    else
      r == Ok(()) && after == before[k := Merge(before[k], updatesAfter)]
  }

  /** Stamping `updated_at` neither adds a key attribute nor changes what the indexes see. */
  lemma StampKeepsAttributes(updates: Item, now: nat)
    ensures var u := updates[UPDATED_AT := Num(now)];
      && (ORGANIZATION_ID in u <==> ORGANIZATION_ID in updates)
      && (PROJECT_ID_CREATED_AT in u <==> PROJECT_ID_CREATED_AT in updates)
      && (USER_EMAIL in u <==> USER_EMAIL in updates)
      && (OrganizationIndexed(u) <==> OrganizationIndexed(updates))
      && (ProjectIndexed(u) <==> ProjectIndexed(updates))
      && (TenantIndexed(u) <==> TenantIndexed(updates))
  {
  }

  /**
   * A new organization whose data leaves the id alone is stored under that
   * id; the defaults hold no indexed attribute, so the caller's data alone
   * decides whether the indexes accept it.
   */
  lemma NewOrganizationItem(organizationId: string, now: nat, data: Item)
    requires organizationId != "" && ORGANIZATION_ID !in data
    ensures var item := Merge(OrganizationDefaults(organizationId, now), data);
      && OrganizationKeyOf(item) == Some(organizationId)
      && (OrganizationIndexed(item) <==> OrganizationIndexed(data))
  {
    var d := OrganizationDefaults(organizationId, now);
    assert EMAIL_ADDRESS !in d && SUBDOMAIN !in d;
    assert Merge(d, data)[ORGANIZATION_ID] == Str(organizationId);
  }

  /** Items that carry their own key in `attr` still do after an upsert at a non-empty key that leaves `attr` alone. */
  lemma UpsertKeepsKeyAttr(table: map<string, Item>, k: string, attr: string, updates: Item)
    requires forall k2 :: k2 in table ==> KeyText(table[k2], attr) == Some(k2)
    requires attr !in updates && k != ""
    ensures var r := Upsert(table, k, map[attr := Str(k)], updates);
            forall k2 :: k2 in r ==> KeyText(r[k2], attr) == Some(k2)
  {
    var r := Upsert(table, k, map[attr := Str(k)], updates);
    forall k2 | k2 in r ensures KeyText(r[k2], attr) == Some(k2) {
      if k2 == k && k in table {
        assert r[k][attr] == table[k][attr];
      }
    }
  }

  class DbClient {
    var organizations: map<string, Item>
    var projects: map<ProjectKey, Item>
    var events: map<EventKey, Item>
    var users: map<string, Item>
    var usage: map<UsageKey, Item>

    /** Every item is stored under the key its own key attributes spell. */
    ghost predicate Valid()
      reads this
    {
      && OrganizationsKeyed(organizations) && ProjectsKeyed(projects) && EventsKeyed(events)
      && UsersKeyed(users) && UsageKeyed(usage)
    }

    constructor()
      ensures Valid()
      ensures organizations == map[] && projects == map[] && events == map[]
      ensures users == map[] && usage == map[]
    {
      organizations := map[];
      projects := map[];
      events := map[];
      users := map[];
      usage := map[];
    }

    // ------------------------------------------------------------ organizations

    /**
     * Stores the defaults overridden by `data` and returns the generated id,
     * even when `data` names another `organization_id` and the item is stored
     * under that one. An empty or mistyped e-mail address or subdomain is refused.
     */
    method CreateOrganization(data: Item, hex: string, now: nat) returns (r: Result<string, Error>)
      requires Valid() && IsHexString(hex, 12)
      modifies this
      ensures Valid()
      ensures var item := Merge(OrganizationDefaults(NewOrganizationId(hex), now), data);
              match OrganizationKeyOf(item)
              case None => r.Err? && r.error.ValidationError? && organizations == old(organizations)
              case Some(k) =>
                if OrganizationIndexed(item) then r == Ok(NewOrganizationId(hex)) && organizations == old(organizations)[k := item]
                else r == Err(BAD_INDEX_KEY) && organizations == old(organizations)
      ensures projects == old(projects) && events == old(events) && users == old(users) && usage == old(usage)
    {
      var organizationId := NewOrganizationId(hex);
      var item := Merge(OrganizationDefaults(organizationId, now), data);
      match OrganizationKeyOf(item) {
        case None =>
          r := Err(ValidationError("organization_id must be a non-empty string"));
        case Some(k) =>
          if !OrganizationIndexed(item) {
            r := Err(BAD_INDEX_KEY);
            return;
          }
          organizations := organizations[k := item];
          r := Ok(organizationId);
      }
    }

    /** `get_item`: an empty id is refused; otherwise the organization stored under it, if any. */
    function GetOrganization(organizationId: string): (r: Result<Option<Item>, Error>)
      reads this
      requires Valid()
      ensures organizationId == "" ==> r == Err(EMPTY_KEY)
      ensures organizationId != "" ==> r.Ok?
      ensures r.Ok? ==> (r.value.Some? <==> organizationId in organizations)
      ensures r.Ok? && r.value.Some? ==>
                r.value.value == organizations[organizationId] && r.value.value[ORGANIZATION_ID] == Str(organizationId)
    {
      if organizationId == "" then Err(EMPTY_KEY)
      else if organizationId in organizations then Ok(Some(organizations[organizationId]))
      else Ok(None)
    }

    method GetOrganizationByEmail(email: string) returns (r: Result<Option<Item>, Error>)
      ensures email == "" ==> r == Err(EMPTY_KEY)
      ensures email != "" ==> r.Ok?
      ensures r.Ok? ==> (r.value.Some? <==> exists k :: k in organizations && Get(organizations[k], EMAIL_ADDRESS) == Str(email))
      ensures r.Ok? && r.value.Some? ==> r.value.value in organizations.Values && Get(r.value.value, EMAIL_ADDRESS) == Str(email)
    {
      if email == "" {
        return Err(EMPTY_KEY);
      }
      var found := FindByAttribute(organizations, EMAIL_ADDRESS, Str(email));
      r := Ok(found);
    }

    method GetOrganizationBySubdomain(subdomain: string) returns (r: Result<Option<Item>, Error>)
      ensures subdomain == "" ==> r == Err(EMPTY_KEY)
      ensures subdomain != "" ==> r.Ok?
      ensures r.Ok? ==> (r.value.Some? <==> exists k :: k in organizations && Get(organizations[k], SUBDOMAIN) == Str(subdomain))
      ensures r.Ok? && r.value.Some? ==> r.value.value in organizations.Values && Get(r.value.value, SUBDOMAIN) == Str(subdomain)
    {
      if subdomain == "" {
        return Err(EMPTY_KEY);
      }
      var found := FindByAttribute(organizations, SUBDOMAIN, Str(subdomain));
      r := Ok(found);
    }

    /**
     * Adds `updated_at` to the caller's `updates` and sets those fields only;
     * there is no existence check, so a missing organization is created. An
     * empty id, the key attribute among the updates, or an index attribute
     * set to an empty or non-string value is refused.
     */
    method UpdateOrganization(organizationId: string, updates: Item, now: nat) returns (updatesAfter: Item, r: Result<(), Error>)
      requires Valid()
      modifies this
      ensures Valid()
      ensures updatesAfter == updates[UPDATED_AT := Num(now)]
      ensures organizationId == "" || ORGANIZATION_ID in updates || !OrganizationIndexed(updates) ==>
                r.Err? && r.error.ValidationError? && organizations == old(organizations)
      ensures organizationId != "" && ORGANIZATION_ID !in updates && OrganizationIndexed(updates) ==>
                r.Ok? && organizations == Upsert(old(organizations), organizationId, map[ORGANIZATION_ID := Str(organizationId)], updatesAfter)
      ensures projects == old(projects) && events == old(events) && users == old(users) && usage == old(usage)
    {
      updatesAfter := updates[UPDATED_AT := Num(now)];
      StampKeepsAttributes(updates, now);
      if organizationId == "" {
        r := Err(EMPTY_KEY);
      } else if ORGANIZATION_ID in updatesAfter {
        r := Err(ValidationError("Cannot update attribute organization_id. This attribute is part of the key"));
      } else if !OrganizationIndexed(updatesAfter) {
        r := Err(BAD_INDEX_KEY);
      } else {
        UpsertKeepsKeyAttr(organizations, organizationId, ORGANIZATION_ID, updatesAfter);
        organizations := Upsert(organizations, organizationId, map[ORGANIZATION_ID := Str(organizationId)], updatesAfter);
        r := Ok(());
      }
    }

    // ----------------------------------------------------------------- projects

    /** An empty tenant id or an empty or mistyped client address or status is refused. */
    method CreateProject(organizationId: string, data: Item, hex: string, now: nat) returns (r: Result<string, Error>)
      requires Valid() && IsHexString(hex, 8)
      modifies this
      ensures Valid()
      ensures var item := Merge(ProjectDefaults(organizationId, NewProjectId(hex), now), data);
              match ProjectKeyOf(item)
              case None => r.Err? && r.error.ValidationError? && projects == old(projects)
              case Some(k) =>
                if ProjectIndexed(item) then r == Ok(NewProjectId(hex)) && projects == old(projects)[k := item]
                else r == Err(BAD_INDEX_KEY) && projects == old(projects)
      ensures organizations == old(organizations) && events == old(events) && users == old(users) && usage == old(usage)
    {
      var projectId := NewProjectId(hex);
      var item := Merge(ProjectDefaults(organizationId, projectId, now), data);
      match ProjectKeyOf(item) {
        case None =>
          r := Err(ValidationError("key attributes must be non-empty strings"));
        case Some(k) =>
          if !ProjectIndexed(item) {
            r := Err(BAD_INDEX_KEY);
            return;
          }
          projects := projects[k := item];
          r := Ok(projectId);
      }
    }

    /**
     * The tenant's project whose sort key is first among those starting
     * `project_id#`; an empty tenant id is refused.
     */
    method GetProject(organizationId: string, projectId: string) returns (r: Result<Option<Item>, Error>)
      ensures organizationId == "" ==> r == Err(EMPTY_KEY)
      ensures organizationId != "" ==> r.Ok?
      ensures r.Ok? ==> (r.value.Some? <==> ProjectExists(projects, organizationId, projectId))
      ensures r.Ok? && r.value.Some? ==> r.value.value == projects[FirstProjectKey(projects, organizationId, projectId).value]
    {
      if organizationId == "" {
        return Err(EMPTY_KEY);
      }
      var matches := set k | k in projects && MatchesProject(k, organizationId, projectId);
      assert forall k :: k in projects && MatchesProject(k, organizationId, projectId) ==> k in matches;
      if matches == {} {
        r := Ok(None);
      } else {
        var k := FirstInSortOrder(matches);
        FirstProjectMatchUnique(projects, organizationId, projectId, k, FirstProjectKey(projects, organizationId, projectId).value);
        r := Ok(Some(projects[k]));
      }
    }

    /**
     * With a non-empty status, the index on `(organization_id, status)`;
     * otherwise the whole partition. An empty tenant id is refused.
     */
    method GetProjectsByOrganization(organizationId: string, status: Option<string>) returns (r: Result<seq<Item>, Error>, ghost keys: seq<ProjectKey>)
      ensures organizationId == "" ==> r == Err(EMPTY_KEY)
      ensures organizationId != "" ==> r.Ok?
      ensures r.Ok? ==> ListsEachOnce(OrganizationProjectKeys(projects, organizationId, status), keys)
                        && r.value == ItemsAt(projects, keys)
    {
      keys := [];
      if organizationId == "" {
        r := Err(EMPTY_KEY);
        return;
      }
      var ks := ListAll(OrganizationProjectKeys(projects, organizationId, status));
      keys := ks;
      r := Ok(ItemsAt(projects, ks));
    }

    /** Every tenant's projects for one client address; an empty address is refused. */
    method GetProjectsByClient(clientEmail: string) returns (r: Result<seq<Item>, Error>, ghost keys: seq<ProjectKey>)
      ensures clientEmail == "" ==> r == Err(EMPTY_KEY)
      ensures clientEmail != "" ==> r.Ok?
      ensures r.Ok? ==> ListsEachOnce(ClientProjectKeys(projects, clientEmail), keys) && r.value == ItemsAt(projects, keys)
    {
      keys := [];
      if clientEmail == "" {
        r := Err(EMPTY_KEY);
        return;
      }
      var ks := ListAll(ClientProjectKeys(projects, clientEmail));
      keys := ks;
      r := Ok(ItemsAt(projects, ks));
    }

    /**
     * An empty tenant id is refused by the lookup. Raises `ValueError` and
     * writes nothing when the project is missing; otherwise adds `updated_at`
     * to `updates` and sets exactly those fields on the project `get_project`
     * finds, keeping its key and every other field.
     */
    method UpdateProject(organizationId: string, projectId: string, updates: Item, now: nat) returns (updatesAfter: Item, r: Result<(), Error>)
      requires Valid()
      modifies this
      ensures Valid()
      ensures organizationId == "" ==> updatesAfter == updates && r == Err(EMPTY_KEY) && projects == old(projects)
      ensures organizationId != "" && !ProjectExists(old(projects), organizationId, projectId) ==>
                updatesAfter == updates && r.Err? && r.error.ValueError? && projects == old(projects)
      ensures organizationId != "" && ProjectExists(old(projects), organizationId, projectId) ==>
                updatesAfter == updates[UPDATED_AT := Num(now)]
                && PatchedAt(old(projects), projects, FirstProjectKey(old(projects), organizationId, projectId).value, updatesAfter, r)
      ensures organizations == old(organizations) && events == old(events) && users == old(users) && usage == old(usage)
    {
      updatesAfter := updates;
      var project := GetProject(organizationId, projectId);
      if project.Err? {
        r := Err(project.error);
        return;
      }
      if project.value.None? {
        r := Err(ValueError("Project " + projectId + " not found in organization " + organizationId));
        return;
      }
      ghost var k0 := FirstProjectKey(projects, organizationId, projectId).value;
      updatesAfter := updates[UPDATED_AT := Num(now)];
      StampKeepsAttributes(updates, now);
      var sortKey := project.value.value[PROJECT_ID_CREATED_AT].s;
      var k := ProjectKey(organizationId, sortKey);
      assert k == k0;
      r := PatchProject(k, updatesAfter);
    }

    /**
     * The `update_item` of `update_project` on a project that exists: the key
     * attributes cannot be set and the index attributes must stay non-empty
     * strings; otherwise exactly the given fields are set.
     */
    method PatchProject(k: ProjectKey, updatesAfter: Item) returns (r: Result<(), Error>)
      requires Valid() && k in projects
      modifies this
      ensures Valid()
      ensures PatchedAt(old(projects), projects, k, updatesAfter, r)
      ensures organizations == old(organizations) && events == old(events) && users == old(users) && usage == old(usage)
    {
      if ORGANIZATION_ID in updatesAfter || PROJECT_ID_CREATED_AT in updatesAfter {
        r := Err(ValidationError("Cannot update attribute. This attribute is part of the key"));
      } else if !ProjectIndexed(updatesAfter) {
        r := Err(BAD_INDEX_KEY);
      } else {
        projects := projects[k := Merge(projects[k], updatesAfter)];
        r := Ok(());
      }
    }

    // ------------------------------------------------------------------- events

    /**
     * Appends one event under `(organization_id#project_id, now)`. Nothing else
     * in the store writes events, so earlier events stay as they were unless
     * this one has the same key. An empty or mistyped `organization_id`, which
     * keys the tenant index, is refused.
     */
    method CreateEvent(organizationId: string, projectId: Value, data: Item, eventId: string, now: nat) returns (r: Result<string, Error>)
      requires Valid()
      modifies this
      ensures Valid()
      ensures IdText(projectId).None? ==> r == Err(UNRENDERED_ID) && events == old(events)
      ensures IdText(projectId).Some? ==>
              var item := Merge(EventDefaults(organizationId, projectId, eventId, now), data);
              match EventKeyOf(item)
              case None => r.Err? && r.error.ValidationError? && events == old(events)
              case Some(k) =>
                if TenantIndexed(item) then r == Ok(eventId) && events == old(events)[k := item]
                else r == Err(BAD_INDEX_KEY) && events == old(events)
      ensures organizations == old(organizations) && projects == old(projects) && users == old(users) && usage == old(usage)
    {
      if IdText(projectId).None? {
        return Err(UNRENDERED_ID);
      }
      var item := Merge(EventDefaults(organizationId, projectId, eventId, now), data);
      match EventKeyOf(item) {
        case None =>
          r := Err(ValidationError("key attributes of the wrong type"));
        case Some(k) =>
          if !TenantIndexed(item) {
            r := Err(BAD_INDEX_KEY);
            return;
          }
          events := events[k := item];
          r := Ok(eventId);
      }
    }

    /** At most `limit` events of one project, newest first; `Limit` must be at least 1. */
    method GetProjectEvents(organizationId: string, projectId: string, limit: int) returns (r: Result<seq<Item>, Error>, ghost keys: seq<EventKey>)
      ensures limit < 1 ==> r.Err? && r.error.ValidationError?
      ensures limit >= 1 ==> r.Ok? && NewestFirst(ProjectEventKeys(events, organizationId, projectId), EventTs, limit, keys)
                             && r.value == ItemsAt(events, keys)
    {
      keys := [];
      if limit < 1 {
        r := Err(ValidationError("Limit must be greater than or equal to 1"));
        return;
      }
      var ks := SelectNewestFirst(ProjectEventKeys(events, organizationId, projectId), EventTs, limit);
      keys := ks;
      r := Ok(ItemsAt(events, ks));
    }

    /**
     * At most `limit` events of the whole tenant, newest first, through
     * `organization_id-index`; `Limit` must be at least 1 and the id non-empty.
     */
    method GetOrganizationEvents(organizationId: string, limit: int) returns (r: Result<seq<Item>, Error>, ghost keys: seq<EventKey>)
      ensures limit < 1 || organizationId == "" ==> r.Err? && r.error.ValidationError?
      ensures limit >= 1 && organizationId != "" ==>
                r.Ok? && NewestFirst(OrganizationEventKeys(events, organizationId), EventTs, limit, keys)
                && r.value == ItemsAt(events, keys)
    {
      keys := [];
      if limit < 1 {
        r := Err(ValidationError("Limit must be greater than or equal to 1"));
        return;
      }
      if organizationId == "" {
        r := Err(EMPTY_KEY);
        return;
      }
      var ks := SelectNewestFirst(OrganizationEventKeys(events, organizationId), EventTs, limit);
      keys := ks;
      r := Ok(ItemsAt(events, ks));
    }

    // -------------------------------------------------------------------- users

    /**
     * Requires `user_email` and `organization_id` in `data`; stores the defaults
     * overridden by `data`, replacing any user with that address. An address
     * or `organization_id` that is empty or not a string is refused.
     */
    method CreateUser(data: Item, now: nat) returns (r: Result<(), Error>)
      requires Valid()
      modifies this
      ensures Valid()
      ensures USER_EMAIL !in data ==> r == Err(ValueError("user_email is required")) && users == old(users)
      ensures USER_EMAIL in data && ORGANIZATION_ID !in data ==>
                r == Err(ValueError("organization_id is required")) && users == old(users)
      ensures USER_EMAIL in data && ORGANIZATION_ID in data && (KeyText(data, USER_EMAIL).None? || !TenantIndexed(data)) ==>
                r.Err? && r.error.ValidationError? && users == old(users)
      ensures KeyText(data, USER_EMAIL).Some? && ORGANIZATION_ID in data && TenantIndexed(data) ==>
                r.Ok? && users == old(users)[data[USER_EMAIL].s := Merge(UserDefaults(now), data)]
      ensures organizations == old(organizations) && projects == old(projects) && events == old(events) && usage == old(usage)
    {
      if USER_EMAIL !in data {
        r := Err(ValueError("user_email is required"));
        return;
      }
      if ORGANIZATION_ID !in data {
        r := Err(ValueError("organization_id is required"));
        return;
      }
      var item := Merge(UserDefaults(now), data);
      match UserKeyOf(item) {
        case None =>
          r := Err(ValidationError("user_email must be a non-empty string"));
        case Some(k) =>
          if !TenantIndexed(item) {
            r := Err(BAD_INDEX_KEY);
            return;
          }
          users := users[k := item];
          r := Ok(());
      }
    }

    /** `get_item`: an empty address is refused; otherwise the user stored under it, if any. */
    function GetUser(userEmail: string): (r: Result<Option<Item>, Error>)
      reads this
      requires Valid()
      ensures userEmail == "" ==> r == Err(EMPTY_KEY)
      ensures userEmail != "" ==> r.Ok?
      ensures r.Ok? ==> (r.value.Some? <==> userEmail in users)
      ensures r.Ok? && r.value.Some? ==> r.value.value == users[userEmail] && r.value.value[USER_EMAIL] == Str(userEmail)
    {
      if userEmail == "" then Err(EMPTY_KEY)
      else if userEmail in users then Ok(Some(users[userEmail]))
      else Ok(None)
    }

    /** Every user of a tenant, from `organization_id-index`; an empty id is refused. */
    method GetOrganizationUsers(organizationId: string) returns (r: Result<seq<Item>, Error>, ghost keys: seq<string>)
      ensures organizationId == "" ==> r == Err(EMPTY_KEY)
      ensures organizationId != "" ==> r.Ok?
      ensures r.Ok? ==> ListsEachOnce(OrganizationUserKeys(users, organizationId), keys) && r.value == ItemsAt(users, keys)
    {
      keys := [];
      if organizationId == "" {
        r := Err(EMPTY_KEY);
        return;
      }
      var ks := ListAll(OrganizationUserKeys(users, organizationId));
      keys := ks;
      r := Ok(ItemsAt(users, ks));
    }

    /** Like `update_organization`: no existence check, so a missing user is created. */
    method UpdateUser(userEmail: string, updates: Item, now: nat) returns (updatesAfter: Item, r: Result<(), Error>)
      requires Valid()
      modifies this
      ensures Valid()
      ensures updatesAfter == updates[UPDATED_AT := Num(now)]
      ensures userEmail == "" || USER_EMAIL in updates || !TenantIndexed(updates) ==>
                r.Err? && r.error.ValidationError? && users == old(users)
      ensures userEmail != "" && USER_EMAIL !in updates && TenantIndexed(updates) ==>
                r.Ok? && users == Upsert(old(users), userEmail, map[USER_EMAIL := Str(userEmail)], updatesAfter)
      ensures organizations == old(organizations) && projects == old(projects) && events == old(events) && usage == old(usage)
    {
      updatesAfter := updates[UPDATED_AT := Num(now)];
      StampKeepsAttributes(updates, now);
      if userEmail == "" {
        r := Err(EMPTY_KEY);
      } else if USER_EMAIL in updatesAfter {
        r := Err(ValidationError("Cannot update attribute user_email. This attribute is part of the key"));
      } else if !TenantIndexed(updatesAfter) {
        r := Err(BAD_INDEX_KEY);
      } else {
        UpsertKeepsKeyAttr(users, userEmail, USER_EMAIL, updatesAfter);
        users := Upsert(users, userEmail, map[USER_EMAIL := Str(userEmail)], updatesAfter);
        r := Ok(());
      }
    }

    // -------------------------------------------------------------------- usage

    /**
     * Stores one usage record under `(organization_id#date, now)`, expiring 90
     * days on; an empty or mistyped `organization_id` is refused by its index.
     */
    method TrackApiUsage(organizationId: string, data: Item, date: string, now: nat) returns (r: Result<(), Error>)
      requires Valid()
      modifies this
      ensures Valid()
      ensures var item := Merge(UsageDefaults(organizationId, date, now), data);
              match UsageKeyOf(item)
              case None => r.Err? && r.error.ValidationError? && usage == old(usage)
              case Some(k) =>
                if TenantIndexed(item) then r.Ok? && usage == old(usage)[k := item]
                else r == Err(BAD_INDEX_KEY) && usage == old(usage)
      ensures organizations == old(organizations) && projects == old(projects) && events == old(events) && users == old(users)
    {
      var item := Merge(UsageDefaults(organizationId, date, now), data);
      match UsageKeyOf(item) {
        case None =>
          r := Err(ValidationError("key attributes of the wrong type"));
        case Some(k) =>
          if !TenantIndexed(item) {
            r := Err(BAD_INDEX_KEY);
            return;
          }
          usage := usage[k := item];
          r := Ok(());
      }
    }

    /** One day's records of a tenant, oldest first. */
    method GetApiUsageByDate(organizationId: string, date: string) returns (r: seq<Item>, ghost keys: seq<UsageKey>)
      ensures OldestFirst(UsageDayKeys(usage, organizationId, date), UsageTs, keys)
      ensures r == ItemsAt(usage, keys)
    {
      var cands := UsageDayKeys(usage, organizationId, date);
      var newest := SelectNewestFirst(cands, UsageTs, |cands|);
      NewestFirstReversed(cands, UsageTs, newest);
      keys := Reverse(newest);
      r := ItemsAt(usage, Reverse(newest));
    }

    /**
     * Totals and the per-model breakdown over the tenant's records of the last
     * `days` days, read oldest first from the index; an empty id is refused.
     */
    method GetApiUsageSummary(organizationId: string, days: int, now: int) returns (r: Result<UsageSummary, Error>, ghost keys: seq<UsageKey>)
      ensures organizationId == "" ==> r == Err(EMPTY_KEY)
      ensures organizationId != "" ==>
                && OldestFirst(UsageSinceKeys(usage, organizationId, now - days * DAY_MS), UsageTs, keys)
                && SummaryOutcome(organizationId, days, ItemsAt(usage, keys), r)
    {
      keys := [];
      if organizationId == "" {
        r := Err(EMPTY_KEY);
        return;
      }
      var cands := UsageSinceKeys(usage, organizationId, now - days * DAY_MS);
      var newest := SelectNewestFirst(cands, UsageTs, |cands|);
      NewestFirstReversed(cands, UsageTs, newest);
      keys := Reverse(newest);
      r := Summarize(organizationId, days, ItemsAt(usage, Reverse(newest)));
    }
  }
}
